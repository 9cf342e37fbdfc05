/**
 * Hot updates and the connections they must not touch: any interleaving of applies, arriving and ending
 * connections, the timers that close a replaced generation, and drains that come to their end.
 */
module HotUpdate {
  import opened Desired
  import opened Runtime
  import opened ApplyFacts
  import opened Apply
  import opened Drains

  /** A connection or session, with what it read from its listener; it is tracked some time after that. */
  datatype Conn = Conn(listener: nat, generation: nat, want: Wanted, tracked: bool)

  datatype World = World(rt: State, conns: map<nat, Conn>)

  /** A drain ends when nothing is left or its time is up; here at any time, and it is forgotten at any time after. */
  datatype Step =
    | Reconfigure(c: AgentConfig, grants: set<Bind>, byBind: Index, order: seq<Key>)
    | Arrive(id: nat, l: Listener)
    | Track(id: nat)
    | Finish(id: nat)
    | TimerFires(k: Key, generation: nat)
    | DrainTimerFires(l: Listener, generation: nat)
    | DrainEnds(l: Listener)
    | DrainDone(l: Listener)

  predicate Enabled(w: World, s: Step) {
    match s
    case Reconfigure(c, grants, byBind, order) =>
      IsIndex(w.rt.listeners, byBind) && (DesiredOf(c).Ok? ==> IsOrder(order, DesiredOf(c).value))
    case Arrive(id, l) => id !in w.conns && IsRunning(w.rt, l)
    case Track(id) => id in w.conns
    case Finish(id) => id in w.conns
    case TimerFires(k, g) => k in w.rt.listeners && g in w.rt.listeners[k].timers
    case DrainTimerFires(l, g) => l in w.rt.draining && KeepsSocket(l) && g in l.timers
    case DrainEnds(l) => l in w.rt.draining && l.stage != Stopped
    case DrainDone(l) => l in w.rt.draining && l.stage == Stopped
  }

  /** The connections closeGenerationAfter finds in the listener's table. */
  predicate Closes(c: Conn, l: Listener, generation: nat) {
    c.tracked && c.listener == l.id && c.generation == generation
  }

  function WithoutGeneration(conns: map<nat, Conn>, l: Listener, generation: nat): map<nat, Conn> {
    map id | id in conns && !Closes(conns[id], l, generation) :: conns[id]
  }

  function WithoutListener(conns: map<nat, Conn>, l: Listener): map<nat, Conn> {
    map id | id in conns && !(conns[id].tracked && conns[id].listener == l.id) :: conns[id]
  }

  function NextState(w: World, s: Step): State
    requires Enabled(w, s)
  {
    match s
    case Reconfigure(c, grants, byBind, order) => ApplyIn(w.rt, byBind, c, grants, order).0
    case TimerFires(k, g) =>
      var l := w.rt.listeners[k];
      w.rt.(listeners := w.rt.listeners[k := l.(timers := l.timers - {g})])
    case DrainTimerFires(l, g) => DrainTimerGone(w.rt, l, g)
    case DrainEnds(l) => DrainStopped(w.rt, l)
    case DrainDone(l) => DrainForgotten(w.rt, l)
    case _ => w.rt
  }

  function NextConns(w: World, s: Step): map<nat, Conn>
    requires Enabled(w, s)
  {
    match s
    case Arrive(id, l) => w.conns[id := Conn(l.id, l.generation, l.cfg.want, false)]
    case Track(id) => w.conns[id := w.conns[id].(tracked := true)]
    case Finish(id) => w.conns - {id}
    case TimerFires(k, g) => WithoutGeneration(w.conns, w.rt.listeners[k], g)
    case DrainTimerFires(l, g) => WithoutGeneration(w.conns, l, g)
    case DrainEnds(l) => WithoutListener(w.conns, l)
    case _ => w.conns
  }

  function Next(w: World, s: Step): World
    requires Enabled(w, s)
  {
    World(NextState(w, s), NextConns(w, s))
  }

  ghost predicate Leads(w: World, steps: seq<Step>, v: World)
    decreases |steps|
  {
    if steps == [] then w == v else Enabled(w, steps[0]) && Leads(Next(w, steps[0]), steps[1..], v)
  }

  // ---- generations only grow ----

  /** The listener with this identity, if it still runs, has moved on from this generation or is still at it. */
  ghost predicate NotBehind(rt: State, id: nat, generation: nat, want: Wanted) {
    forall k | k in rt.listeners && rt.listeners[k].id == id :: Since(rt.listeners[k], generation, want)
  }

  predicate Since(l: Listener, generation: nat, want: Wanted) {
    generation < l.generation || (generation == l.generation && want == l.cfg.want)
  }

  ghost predicate ConnOk(rt: State, c: Conn) {
    c.listener < rt.at.listener && c.generation <= rt.at.generation && NotBehind(rt, c.listener, c.generation, c.want)
  }

  ghost predicate WorldOk(w: World) {
    RuntimeOk(w.rt) && forall id | id in w.conns :: ConnOk(w.rt, w.conns[id])
  }

  /** A listener with an old identity is the old listener, at its generation or a new one. */
  lemma CameFrom(a: State, b: State, want: Listening, k: Key) returns (j: Key)
    requires StateOk(a) && AppliedTo(a, b, want) && k in b.listeners && b.listeners[k].id < a.at.listener
    ensures j in a.listeners && a.listeners[j].id == b.listeners[k].id
    ensures if a.listeners[j].cfg.want == b.listeners[k].cfg.want then b.listeners[k].generation == a.listeners[j].generation
            else b.listeners[k].generation > a.at.generation
  {
    assert ServedAs(a, b, want[k], b.listeners[k]);
    j :| j in a.listeners && SocketOf(a.listeners[j]) == BindOf(want[k]);
  }

  lemma AppliedKeepsConn(a: State, b: State, want: Listening, c: Conn)
    requires StateOk(a) && AppliedTo(a, b, want) && ConnOk(a, c)
    requires a.at.generation <= b.at.generation && a.at.listener <= b.at.listener
    ensures ConnOk(b, c)
  {
    forall k | k in b.listeners && b.listeners[k].id == c.listener ensures Since(b.listeners[k], c.generation, c.want) {
      var j := CameFrom(a, b, want, k);
      assert Since(a.listeners[j], c.generation, c.want);
    }
  }

  lemma Reconfigured(w: World, s: Step)
    requires WorldOk(w) && s.Reconfigure? && Enabled(w, s)
    ensures Reapplied(w.rt, Next(w, s).rt, s.c) && Next(w, s).conns == w.conns
  {
    ApplyKeepsOk(w.rt, s.byBind, s.c, s.grants, s.order, Next(w, s).rt);
  }

  lemma ReappliedKeeps(w: World, v: World, c: AgentConfig)
    requires WorldOk(w) && v.conns == w.conns && Reapplied(w.rt, v.rt, c)
    ensures WorldOk(v)
  {
    forall id | id in v.conns ensures ConnOk(v.rt, v.conns[id]) {
      assert ConnOk(w.rt, w.conns[id]);
      if !Unaffected(w.rt, v.rt) {
        AppliedKeepsConn(w.rt, v.rt, DesiredOf(c).value, w.conns[id]);
      }
    }
  }

  lemma FewerTimersKeepConn(a: State, b: State, k: Key, l: Listener, c: Conn)
    requires ConnOk(a, c) && k in a.listeners && b == a.(listeners := a.listeners[k := l])
    requires l == a.listeners[k].(timers := l.timers)
    ensures ConnOk(b, c)
  {
    forall j | j in b.listeners && b.listeners[j].id == c.listener ensures Since(b.listeners[j], c.generation, c.want) {
      assert Since(a.listeners[j], c.generation, c.want);
    }
  }

  lemma TimerKeeps(w: World, s: Step)
    requires WorldOk(w) && s.TimerFires? && Enabled(w, s)
    ensures WorldOk(Next(w, s))
  {
    var v := Next(w, s);
    var l := v.rt.listeners[s.k];
    FewerTimersOk(w.rt, v.rt, s.k, l);
    forall id | id in v.conns ensures ConnOk(v.rt, v.conns[id]) {
      FewerTimersKeepConn(w.rt, v.rt, s.k, l, w.conns[id]);
    }
  }

  /** Steps of a drain leave every running listener alone. */
  lemma SameRunning(a: State, b: State, c: Conn)
    requires ConnOk(a, c) && b.listeners == a.listeners && b.at == a.at
    ensures ConnOk(b, c)
  {
    forall k | k in b.listeners && b.listeners[k].id == c.listener ensures Since(b.listeners[k], c.generation, c.want) {
      assert Since(a.listeners[k], c.generation, c.want);
    }
  }

  predicate OfDrain(s: Step) {
    s.DrainTimerFires? || s.DrainEnds? || s.DrainDone?
  }

  lemma DrainStepKeeps(w: World, s: Step)
    requires WorldOk(w) && OfDrain(s) && Enabled(w, s)
    ensures WorldOk(Next(w, s))
  {
    var v := Next(w, s);
    match s {
      case DrainTimerFires(l, g) => TimerGoneOk(w.rt, l, g);
      case DrainEnds(l) => StoppedOk(w.rt, l);
      case DrainDone(l) => ForgottenOk(w.rt, l);
    }
    forall id | id in v.conns ensures ConnOk(v.rt, v.conns[id]) {
      SameRunning(w.rt, v.rt, w.conns[id]);
    }
  }

  lemma ArrivalOk(rt: State, l: Listener)
    requires RuntimeOk(rt) && IsRunning(rt, l)
    ensures ConnOk(rt, Conn(l.id, l.generation, l.cfg.want, false))
  {
    if l in rt.draining {
      assert DrainOk(rt, l);
      forall k | k in rt.listeners ensures rt.listeners[k].id != l.id {
        assert NotRunning(rt, l, k);
      }
    } else {
      var j :| j in rt.listeners && rt.listeners[j] == l;
      assert ListenerOk(rt, j, l);
      forall k | k in rt.listeners && rt.listeners[k].id == l.id ensures Since(rt.listeners[k], l.generation, l.cfg.want) {
        assert Apart(rt.listeners, j, k);
      }
    }
  }

  lemma ConnStepKeeps(w: World, s: Step)
    requires WorldOk(w) && (s.Arrive? || s.Track? || s.Finish?) && Enabled(w, s)
    ensures WorldOk(Next(w, s))
  {
    if s.Arrive? {
      ArrivalOk(w.rt, s.l);
    }
  }

  lemma StepKeeps(w: World, s: Step)
    requires WorldOk(w) && Enabled(w, s)
    ensures WorldOk(Next(w, s))
  {
    if s.Reconfigure? {
      Reconfigured(w, s);
      ReappliedKeeps(w, Next(w, s), s.c);
    } else if s.TimerFires? {
      TimerKeeps(w, s);
    } else if OfDrain(s) {
      DrainStepKeeps(w, s);
    } else {
      ConnStepKeeps(w, s);
    }
  }

  /** Runs start from an agent that serves nothing. */
  lemma NewAgentOk()
    ensures WorldOk(World(NOTHING_RUNS, map[]))
  {
  }

  lemma {:induction false} RunKeeps(w: World, steps: seq<Step>, v: World)
    requires WorldOk(w) && Leads(w, steps, v)
    ensures WorldOk(v)
    decreases |steps|
  {
    if steps != [] {
      StepKeeps(w, steps[0]);
      RunKeeps(Next(w, steps[0]), steps[1..], v);
    }
  }

  // ---- current traffic is safe ----

  /**
   * In every run, even one that returns to an earlier configuration, a drain timer closes only connections whose
   * generation the listener has left behind: the listener's own generation is strictly newer.
   */
  lemma TimerSparesCurrent(w: World, steps: seq<Step>, v: World, k: Key, g: nat, id: nat)
    requires WorldOk(w) && Leads(w, steps, v) && Enabled(v, TimerFires(k, g))
    requires id in v.conns && id !in Next(v, TimerFires(k, g)).conns
    ensures v.conns[id].listener == v.rt.listeners[k].id && v.conns[id].generation == g < v.rt.listeners[k].generation
  {
    RunKeeps(w, steps, v);
    assert ListenerOk(v.rt, k, v.rt.listeners[k]);
  }

  /**
   * What a step closes: a timer every connection the listener knows of that generation, the end of a drain every one
   * the listener knows, and a connection's own end that one.
   */
  lemma ClosesExactly(w: World, s: Step, id: nat)
    requires Enabled(w, s) && id in w.conns
    ensures id !in Next(w, s).conns <==>
              match s
              case TimerFires(k, g) =>
                w.conns[id].tracked && w.conns[id].listener == w.rt.listeners[k].id && w.conns[id].generation == g
              case DrainTimerFires(l, g) => w.conns[id].tracked && w.conns[id].listener == l.id && w.conns[id].generation == g
              case DrainEnds(l) => w.conns[id].tracked && w.conns[id].listener == l.id
              case Finish(ended) => id == ended
              case _ => false
  {
  }

  /** A connection starts with what its listener is at, untracked, and stays as it is but for being tracked. */
  lemma ConnsMean(w: World, s: Step, id: nat)
    requires Enabled(w, s) && id in Next(w, s).conns
    ensures var c := Next(w, s).conns[id];
            if s.Arrive? && s.id == id
            then c.listener == s.l.id && c.generation == s.l.generation && c.want == s.l.cfg.want && !c.tracked
            else id in w.conns && c == w.conns[id].(tracked := w.conns[id].tracked || s == Track(id))
  {
  }

  /** What a drain closes, by a timer or at its end, never belongs to a running listener. */
  lemma DrainSparesRunning(w: World, steps: seq<Step>, v: World, s: Step, k: Key, id: nat)
    requires WorldOk(w) && Leads(w, steps, v) && OfDrain(s) && Enabled(v, s)
    requires id in v.conns && id !in Next(v, s).conns && k in v.rt.listeners
    ensures v.rt.listeners[k].id != v.conns[id].listener
    ensures s.DrainTimerFires? ==> v.conns[id].generation == s.generation < s.l.generation
  {
    RunKeeps(w, steps, v);
    assert NotRunning(v.rt, s.l, k) && DrainOk(v.rt, s.l);
  }

  /** A connection of a listener's current generation always works with the listener's current settings. */
  lemma CurrentIsCurrent(w: World, steps: seq<Step>, v: World, k: Key, id: nat)
    requires WorldOk(w) && Leads(w, steps, v) && k in v.rt.listeners && id in v.conns
    requires v.conns[id].listener == v.rt.listeners[k].id
    ensures v.conns[id].generation <= v.rt.listeners[k].generation
    ensures v.conns[id].generation == v.rt.listeners[k].generation ==> v.conns[id].want == v.rt.listeners[k].cfg.want
  {
    RunKeeps(w, steps, v);
    assert ConnOk(v.rt, v.conns[id]);
    assert Since(v.rt.listeners[k], v.conns[id].generation, v.conns[id].want);
  }

  lemma CountersGrow(w: World, s: Step)
    requires WorldOk(w) && Enabled(w, s)
    ensures w.rt.at.listener <= Next(w, s).rt.at.listener
  {
    if s.Reconfigure? {
      Reconfigured(w, s);
    }
  }

  lemma ReappliedFrom(a: State, b: State, c: AgentConfig, k: Key) returns (j: Key)
    requires StateOk(a) && Reapplied(a, b, c) && k in b.listeners && b.listeners[k].id < a.at.listener
    ensures j in a.listeners && a.listeners[j].id == b.listeners[k].id && a.listeners[j].generation <= b.listeners[k].generation
  {
    if Unaffected(a, b) {
      j := k;
    } else {
      j := CameFrom(a, b, DesiredOf(c).value, k);
      assert ListenerOk(a, j, a.listeners[j]);
    }
  }

  lemma StepBack(w: World, s: Step, k: Key) returns (j: Key)
    requires WorldOk(w) && Enabled(w, s) && k in Next(w, s).rt.listeners && Next(w, s).rt.listeners[k].id < w.rt.at.listener
    ensures j in w.rt.listeners && w.rt.listeners[j].id == Next(w, s).rt.listeners[k].id
    ensures w.rt.listeners[j].generation <= Next(w, s).rt.listeners[k].generation
  {
    if s.Reconfigure? {
      Reconfigured(w, s);
      j := ReappliedFrom(w.rt, Next(w, s).rt, s.c, k);
    } else {
      j := k;
    }
  }

  /** A listener that runs at the end ran all along, never at a later generation. */
  lemma {:induction false} StillThere(w: World, steps: seq<Step>, v: World, k: Key) returns (j: Key)
    requires WorldOk(w) && Leads(w, steps, v) && k in v.rt.listeners && v.rt.listeners[k].id < w.rt.at.listener
    ensures j in w.rt.listeners && w.rt.listeners[j].id == v.rt.listeners[k].id
    ensures w.rt.listeners[j].generation <= v.rt.listeners[k].generation
    decreases |steps|
  {
    if steps == [] {
      j := k;
    } else {
      StepKeeps(w, steps[0]);
      CountersGrow(w, steps[0]);
      var i := StillThere(Next(w, steps[0]), steps[1..], v, k);
      j := StepBack(w, steps[0], i);
    }
  }

  predicate IsCurrent(rt: State, c: Conn, j: Key)
    requires j in rt.listeners
  {
    c.listener == rt.listeners[j].id && c.generation == rt.listeners[j].generation
  }

  /** The step is no timer of this connection's generation and nothing that a drain of its listener does. */
  predicate LeavesAlone(w: World, s: Step, c: Conn) {
    && (s.TimerFires? && s.k in w.rt.listeners ==> !Closes(c, w.rt.listeners[s.k], s.generation))
    && (OfDrain(s) ==> c.listener != s.l.id)
  }

  lemma TimerNotOf(w: World, s: Step, j: Key, c: Conn)
    requires WorldOk(w) && s.TimerFires? && Enabled(w, s) && j in w.rt.listeners && IsCurrent(w.rt, c, j)
    ensures LeavesAlone(w, s, c)
  {
    assert Apart(w.rt.listeners, j, s.k);
    assert ListenerOk(w.rt, s.k, w.rt.listeners[s.k]);
  }

  lemma DrainNotOf(w: World, s: Step, j: Key, c: Conn)
    requires WorldOk(w) && OfDrain(s) && Enabled(w, s) && j in w.rt.listeners && IsCurrent(w.rt, c, j)
    ensures LeavesAlone(w, s, c)
  {
    assert NotRunning(w.rt, s.l, j);
  }

  lemma CurrentLeftAlone(w: World, s: Step, j: Key, c: Conn)
    requires WorldOk(w) && Enabled(w, s) && j in w.rt.listeners && IsCurrent(w.rt, c, j)
    ensures LeavesAlone(w, s, c)
  {
    if s.TimerFires? {
      TimerNotOf(w, s, j, c);
    } else if OfDrain(s) {
      DrainNotOf(w, s, j, c);
    }
  }

  lemma OneStepSpares(w: World, s: Step, id: nat)
    requires Enabled(w, s) && id in w.conns && s != Finish(id) && LeavesAlone(w, s, w.conns[id])
    ensures id in NextConns(w, s) && NextConns(w, s)[id] == w.conns[id].(tracked := NextConns(w, s)[id].tracked)
  {
  }

  /** Unless it ends by itself, a connection outlives every run that leaves its listener's settings alone. */
  lemma {:induction false} UnchangedSurvives(w: World, steps: seq<Step>, v: World, j: Key, k: Key, id: nat)
    requires WorldOk(w) && Leads(w, steps, v) && id in w.conns && j in w.rt.listeners && IsCurrent(w.rt, w.conns[id], j)
    requires k in v.rt.listeners && v.rt.listeners[k].id == w.rt.listeners[j].id
    requires v.rt.listeners[k].generation == w.rt.listeners[j].generation
    requires Finish(id) !in steps
    ensures id in v.conns && v.conns[id].generation == w.conns[id].generation
    decreases |steps|
  {
    if steps != [] {
      var u := Next(w, steps[0]);
      StepKeeps(w, steps[0]);
      CountersGrow(w, steps[0]);
      assert ListenerOk(w.rt, j, w.rt.listeners[j]);
      var i := StillThere(u, steps[1..], v, k);
      var j' := StepBack(w, steps[0], i);
      assert Apart(w.rt.listeners, j, j');
      CurrentLeftAlone(w, steps[0], j, w.conns[id]);
      OneStepSpares(w, steps[0], id);
      UnchangedSurvives(u, steps[1..], v, i, k, id);
    }
  }
}
