/** Forwarding and probes behind one Apply, as the agent's main program combines them. */
module Combined {
  import opened Common
  import opened Desired
  import opened Runtime
  import opened Apply
  import opened Drains
  import opened AgentRuntime
  import opened Probes

  /** The node does exactly what the configuration says. */
  ghost predicate Runs(listeners: Listeners, workers: map<nat, Worker>, c: AgentConfig) {
    && DesiredOf(c).Ok? && listeners.Keys == DesiredOf(c).value.Keys
    && (forall k | k in listeners :: listeners[k].cfg.want == DesiredOf(c).value[k] && listeners[k].stage == Active)
    && workers.Keys == Enabled(c.probes, |c.probes|).Keys
    && forall id | id in workers :: workers[id].probe == Enabled(c.probes, |c.probes|)[id]
  }

  /** What is checked before forwarding changes: the probes, and whether forwarding can serve the configuration. */
  ghost predicate Servable(rt: State, c: AgentConfig, grants: set<Bind>) {
    ProbesOk(c.probes) && DesiredOf(c).Ok? && !rt.closed && Applicable(rt, DesiredOf(c).value, grants)
  }

  lemma NothingToServe(rt: State, c: AgentConfig, grants: set<Bind>)
    requires c.rules == [] && c.probes == []
    ensures DesiredOf(c) == Ok(map[]) && (Servable(rt, c, grants) <==> !rt.closed)
    ensures forall listeners: Listeners, workers {:trigger Runs(listeners, workers, c)} ::
              Runs(listeners, workers, c) ==> listeners == map[]
  {
    forall listeners: Listeners, workers {:trigger Runs(listeners, workers, c)} | Runs(listeners, workers, c)
      ensures listeners == map[]
    {
      assert listeners.Keys == {};
    }
  }

  lemma RunsAsAsked(a: State, b: State, c: AgentConfig, was: Manager, now: Manager)
    requires DesiredOf(c).Ok? && AppliedTo(a, b, DesiredOf(c).value)
    requires ManagerAppliedTo(was, now, Enabled(c.probes, |c.probes|))
    ensures Runs(b.listeners, now.workers, c)
  {
    forall k | k in b.listeners ensures b.listeners[k].cfg.want == DesiredOf(c).value[k] && b.listeners[k].stage == Active {
      assert ServedAs(a, b, DesiredOf(c).value[k], b.listeners[k]);
    }
  }

  class CombinedRuntime {
    const forwarding: AgentRuntime
    const probes: ProbeManager
    /** The configuration last applied, if any; unless the node is stopped it is the one that runs. */
    ghost var doing: set<AgentConfig>

    constructor (forwarding: AgentRuntime, probes: ProbeManager)
      requires RuntimeOk(forwarding.View()) && ManagerOk(probes.View())
      ensures this.forwarding == forwarding && this.probes == probes && doing == {} && Valid()
    {
      this.forwarding, this.probes, doing := forwarding, probes, {};
    }

    ghost predicate Valid()
      reads this, forwarding, probes
    {
      && RuntimeOk(forwarding.View()) && ManagerOk(probes.View())
      && (!forwarding.closed && !probes.stopped ==> forall c | c in doing :: Runs(forwarding.listeners, probes.workers, c))
    }

    /** Both parts run or both are stopped, and a stopped node serves nothing. */
    predicate Together()
      reads forwarding, probes
    {
      (forwarding.closed <==> probes.stopped) && (forwarding.closed ==> forwarding.listeners == map[])
    }

    /**
     * The probes are checked before forwarding changes, so a refusal leaves both alone, with one exception: a
     * probe manager that is stopped while forwarding is not, as for a moment in Stop, refuses after forwarding has
     * changed.
     */
    method Apply(c: AgentConfig, grants: set<Bind>) returns (ok: bool)
      requires Valid()
      modifies this, forwarding, probes
      ensures Valid()
      ensures doing == if ok then {c} else old(doing)
      ensures ok <==> Servable(old(forwarding.View()), c, grants) && !old(probes.stopped)
      ensures ok ==> Runs(forwarding.listeners, probes.workers, c)
      ensures if Servable(old(forwarding.View()), c, grants)
              then AppliedTo(old(forwarding.View()), forwarding.View(), DesiredOf(c).value)
              else Unaffected(old(forwarding.View()), forwarding.View())
      ensures if ok then ManagerAppliedTo(old(probes.View()), probes.View(), Enabled(c.probes, |c.probes|))
              else probes.View() == old(probes.View())
      ensures forwarding.closed == old(forwarding.closed) && probes.stopped == old(probes.stopped)
    {
      ok := probes.Validate(c.probes);
      if !ok {
        return;
      }
      var error := forwarding.Apply(c, grants);
      if error.Some? {
        return false;
      }
      ok := probes.Apply(c.probes);
      if ok {
        RunsAsAsked(old(forwarding.View()), forwarding.View(), c, old(probes.View()), probes.View());
        doing := {c};
      }
    }

    /** All or nothing, as the config loop relies on it. */
    method Switch(c: AgentConfig, grants: set<Bind>) returns (ok: bool)
      requires Valid() && Together()
      modifies this, forwarding, probes
      ensures Valid() && Together() && forwarding.closed == old(forwarding.closed)
      ensures ok <==> Servable(old(forwarding.View()), c, grants)
      ensures ok ==> c in doing && !forwarding.closed
      ensures !ok ==> doing == old(doing) && forwarding.listeners == old(forwarding.listeners) && probes.View() == old(probes.View())
      ensures c.rules == [] && c.probes == [] ==> forwarding.listeners == map[]
    {
      if c.rules == [] && c.probes == [] {
        NothingToServe(forwarding.View(), c, grants);
      }
      ok := Apply(c, grants);
    }

    /** The drains of forwarding end by themselves, and touch nothing else. */
    method StopDraining(l: Listener)
      requires Valid()
      modifies forwarding
      ensures Valid() && forwarding.View() == DrainStopped(old(forwarding.View()), l)
    {
      forwarding.StopDraining(l);
    }

    method ForgetDrained(l: Listener)
      requires Valid()
      modifies forwarding
      ensures Valid() && forwarding.View() == DrainForgotten(old(forwarding.View()), l)
    {
      forwarding.ForgetDrained(l);
    }

    method Stop()
      requires Valid()
      modifies forwarding, probes
      ensures Valid() && forwarding.closed && probes.stopped
      ensures !old(forwarding.closed) ==> forwarding.listeners == map[]
      ensures !old(probes.stopped) ==> probes.workers == map[]
    {
      probes.Stop();
      forwarding.Stop();
    }
  }
}
