/**
 * Limits across reconfiguration: applies of new configurations interleaved with the ends of drains and everything
 * connections and sessions do. The connections of a rule, and of a tenant across its rules, on whatever listener
 * and of whatever generation, stay within the limit.
 */
module LimitsSurvive {
  import opened Common
  import opened Desired
  import opened Trackers
  import opened Runtime
  import opened RuntimeFacts
  import opened Apply
  import opened Drains
  import opened LimitFacts
  import opened Handouts
  import Slots

  /** asked: the settings each arrival read from its listener. */
  datatype World = World(rt: State, slots: Slots.System, asked: map<Slots.HolderId, Wanted>)

  /** A tracker enters the slot table when it is first used. */
  datatype Step =
    | Reconfigure(c: AgentConfig, grants: set<Bind>, byBind: Index, order: seq<Key>)
    | UseRuleTracker(rule: nat)
    | UseTenantTracker(tenant: nat)
    | ArriveOn(h: Slots.HolderId, l: Listener, ip: Ip, key: string)
    | Move(step: Slots.Step)
    | DrainEnds(l: Listener)
    | DrainDone(l: Listener)

  /** Steps of the runtime's own tables; all others happen in the slots. */
  predicate OfRuntime(s: Step) {
    s.Reconfigure? || s.DrainEnds? || s.DrainDone?
  }

  function Arrival(l: Listener, ip: Ip, key: string): Slots.Holder {
    Slots.Holder(Slots.OfRule(l.cfg.tracker),
                 if l.cfg.tenantTracker.Some? then Some(Slots.OfTenant(l.cfg.tenantTracker.value)) else None,
                 ip, l.id, key, l.generation, Slots.Asking)
  }

  function SlotStep(w: World, s: Step): Slots.Step
    requires !OfRuntime(s)
    requires s.UseRuleTracker? ==> s.rule in w.rt.trackers
    requires s.UseTenantTracker? ==> s.tenant in w.rt.tenantTrackers
  {
    match s
    case UseRuleTracker(o) => Slots.MakeTracker(Slots.OfRule(w.rt.trackers[o].id), w.rt.trackers[o].limit)
    case UseTenantTracker(o) => Slots.MakeTracker(Slots.OfTenant(w.rt.tenantTrackers[o].id), w.rt.tenantTrackers[o].limit)
    case ArriveOn(h, l, ip, key) => Slots.Arrive(h, Arrival(l, ip, key))
    case Move(step) => step
  }

  predicate Enabled(w: World, s: Step) {
    match s
    case Reconfigure(c, grants, byBind, order) =>
      IsIndex(w.rt.listeners, byBind) && UniqueIds(c) && (DesiredOf(c).Ok? ==> IsOrder(order, DesiredOf(c).value))
    case UseRuleTracker(o) => o in w.rt.trackers && Slots.Enabled(w.slots, SlotStep(w, s))
    case UseTenantTracker(o) => o in w.rt.tenantTrackers && Slots.Enabled(w.slots, SlotStep(w, s))
    case ArriveOn(h, l, ip, key) => IsRunning(w.rt, l) && Slots.Enabled(w.slots, SlotStep(w, s))
    case Move(step) => !step.MakeTracker? && !step.Arrive? && Slots.Enabled(w.slots, step)
    case DrainEnds(l) => l in w.rt.draining && l.stage != Stopped
    case DrainDone(l) => l in w.rt.draining && l.stage == Stopped
  }

  function Next(w: World, s: Step): World
    requires Enabled(w, s)
  {
    if s.Reconfigure? then w.(rt := ApplyIn(w.rt, s.byBind, s.c, s.grants, s.order).0)
    else if s.DrainEnds? then w.(rt := DrainStopped(w.rt, s.l))
    else if s.DrainDone? then w.(rt := DrainForgotten(w.rt, s.l))
    else
      var slots := Slots.Next(w.slots, SlotStep(w, s));
      if s.ArriveOn? then World(w.rt, slots, w.asked[s.h := s.l.cfg.want]) else w.(slots := slots)
  }

  ghost predicate Leads(w: World, steps: seq<Step>, v: World)
    decreases |steps|
  {
    if steps == [] then w == v else Enabled(w, steps[0]) && Leads(Next(w, steps[0]), steps[1..], v)
  }

  // ---- what a slot step leaves alone ----

  lemma SlotStepFrame(s: Slots.System, t: Slots.Step)
    requires Slots.Enabled(s, t)
    ensures var v := Slots.Next(s, t);
      && (forall h | h in v.holders && !(t.Arrive? && t.h == h) ::
            h in s.holders && v.holders[h].rule == s.holders[h].rule && v.holders[h].tenant == s.holders[h].tenant
            && (s.holders[h].stage == Slots.Gone ==> v.holders[h].stage == Slots.Gone))
      && (forall i | i in v.trackers && !(t.MakeTracker? && t.t == i) :: i in s.trackers && v.trackers[i].limit == s.trackers[i].limit)
  {
    HoldersKept(s, t, Slots.Next(s, t).holders);
  }

  lemma HoldersKept(s: Slots.System, t: Slots.Step, holders: map<Slots.HolderId, Slots.Holder>)
    requires Slots.Enabled(s, t) && holders == Slots.Next(s, t).holders
    ensures forall h | h in holders && !(t.Arrive? && t.h == h) ::
              h in s.holders && holders[h].rule == s.holders[h].rule && holders[h].tenant == s.holders[h].tenant
              && (s.holders[h].stage == Slots.Gone ==> holders[h].stage == Slots.Gone)
  {
  }

  // ---- an owner whose limit no configuration changes ----

  function IdOf(o: Owner, tracker: nat): Slots.TrackerId {
    if o.ByRule? then Slots.OfRule(tracker) else Slots.OfTenant(tracker)
  }

  function TrackerOf(o: Owner, x: Slots.Holder): Option<Slots.TrackerId> {
    if o.ByRule? then Some(x.rule) else x.tenant
  }

  /** Arrivals of the owner that have not come to their end. */
  predicate Arrived(w: World, h: Slots.HolderId, o: Owner) {
    h in w.slots.holders && w.slots.holders[h].stage != Slots.Gone && h in w.asked && Owns(o, w.asked[h])
  }

  /** ref is the owner's tracker: every listener of the owner hands it out, every arrival has it. */
  ghost predicate Kept(w: World, o: Owner, ref: TrackerRef) {
    && HandsOut(w.rt, o, ref)
    && (forall h | Arrived(w, h, o) :: TrackerOf(o, w.slots.holders[h]) == Some(IdOf(o, ref.id)))
    && (IdOf(o, ref.id) in w.slots.trackers ==> w.slots.trackers[IdOf(o, ref.id)].limit == ref.limit)
  }

  ghost predicate WorldOk(w: World) {
    && RuntimeOk(w.rt) && Slots.SlotsOk(w.slots)
    && (forall t | t in w.slots.trackers :: t.id < w.rt.at.tracker)
    && forall h | h in w.slots.holders :: h in w.asked
  }

  /** The step installs a configuration. */
  predicate Applies(w: World, s: Step)
    requires Enabled(w, s)
  {
    s.Reconfigure? && ApplyIn(w.rt, s.byBind, s.c, s.grants, s.order).1.None?
  }

  /** Every configuration that the run installs has the owner with this limit. */
  ghost predicate Stays(w: World, steps: seq<Step>, o: Owner, limit: Limit)
    decreases |steps|
  {
    steps == [] ||
    (Enabled(w, steps[0]) && (Applies(w, steps[0]) ==> AsksFor(steps[0].c, o, limit))
     && Stays(Next(w, steps[0]), steps[1..], o, limit))
  }

  // ---- every step, every run ----

  lemma ReconfigureOk(w: World, s: Step, b: State)
    requires WorldOk(w) && s.Reconfigure? && Enabled(w, s) && b == Next(w, s).rt
    ensures RuntimeOk(b)
    ensures if Applies(w, s) then DesiredOf(s.c).Ok? && AppliedTo(w.rt, b, DesiredOf(s.c).value) && LimitsMatch(b)
            else Unaffected(w.rt, b)
  {
    ApplyKeepsOk(w.rt, s.byBind, s.c, s.grants, s.order, b);
    if Applies(w, s) {
      AppliedLimits(w.rt, s.byBind, s.c, s.grants, s.order, b);
    }
  }

  lemma StepOk(w: World, s: Step)
    requires WorldOk(w) && Enabled(w, s)
    ensures WorldOk(Next(w, s))
  {
    if s.Reconfigure? {
      ReconfigureOk(w, s, Next(w, s).rt);
    } else if s.DrainEnds? {
      StoppedOk(w.rt, s.l);
    } else if s.DrainDone? {
      ForgottenOk(w.rt, s.l);
    } else {
      Slots.StepKeeps(w.slots, SlotStep(w, s));
      SlotStepFrame(w.slots, SlotStep(w, s));
    }
  }

  lemma {:induction false} RunOk(w: World, steps: seq<Step>, v: World)
    requires WorldOk(w) && Leads(w, steps, v)
    ensures WorldOk(v)
    decreases |steps|
  {
    if steps != [] {
      StepOk(w, steps[0]);
      RunOk(Next(w, steps[0]), steps[1..], v);
    }
  }

  /** A step of the runtime's tables keeps what its listeners hand out. */
  lemma RuntimeStepHandsOut(w: World, s: Step, o: Owner, ref: TrackerRef, b: State)
    requires WorldOk(w) && OfRuntime(s) && Enabled(w, s) && HandsOut(w.rt, o, ref) && b == Next(w, s).rt
    requires Applies(w, s) ==> AsksFor(s.c, o, ref.limit)
    ensures HandsOut(b, o, ref)
  {
    if s.DrainEnds? {
      StoppedHandsOut(w.rt, s.l, o, ref);
    } else if s.DrainDone? {
      ForgottenHandsOut(w.rt, s.l, o, ref);
    } else {
      ReconfigureOk(w, s, b);
      if Applies(w, s) {
        var k :| AsksAt(DesiredOf(s.c).value, o, ref.limit, k);
        AsksForAll(s.c, o, ref.limit, k);
        AppliedHandsOut(w.rt, b, DesiredOf(s.c).value, o, ref, k);
      } else {
        UnaffectedHandsOut(w.rt, b, o, ref);
      }
    }
  }

  lemma SameSlots(w: World, b: State, o: Owner, ref: TrackerRef)
    requires Kept(w, o, ref) && HandsOut(b, o, ref)
    ensures Kept(w.(rt := b), o, ref)
  {
    forall h | Arrived(w.(rt := b), h, o) ensures Arrived(w, h, o) {
    }
  }

  /** A step of the slots gives new arrivals what their listener hands out. */
  lemma SlotStepKeeps(w: World, s: Step, o: Owner, ref: TrackerRef)
    requires !OfRuntime(s) && Enabled(w, s) && Kept(w, o, ref)
    requires Numbered(w.rt.trackers, w.rt.at.tracker) && Numbered(w.rt.tenantTrackers, w.rt.at.tracker)
    ensures Kept(Next(w, s), o, ref)
  {
    var v := Next(w, s);
    SlotStepFrame(w.slots, SlotStep(w, s));
    forall h | Arrived(v, h, o) ensures TrackerOf(o, v.slots.holders[h]) == Some(IdOf(o, ref.id)) {
      if !(s.ArriveOn? && s.h == h) {
        assert Arrived(w, h, o);
      }
    }
    if s.UseRuleTracker? || s.UseTenantTracker? {
      OwnTracker(w.rt, s, o, ref);
    }
  }

  /** Only the owner's own tracker has its number. */
  lemma OwnTracker(rt: State, s: Step, o: Owner, ref: TrackerRef)
    requires HandsOut(rt, o, ref) && Numbered(rt.trackers, rt.at.tracker) && Numbered(rt.tenantTrackers, rt.at.tracker)
    ensures s.UseRuleTracker? && s.rule in rt.trackers && o.ByRule? && rt.trackers[s.rule].id == ref.id ==> rt.trackers[s.rule] == ref
    ensures s.UseTenantTracker? && s.tenant in rt.tenantTrackers && o.ByTenant? && rt.tenantTrackers[s.tenant].id == ref.id ==>
              rt.tenantTrackers[s.tenant] == ref
  {
    if s.UseRuleTracker? {
      assert OwnTrackers(rt.trackers, s.rule, o.id);
    }
    if s.UseTenantTracker? {
      assert OwnTrackers(rt.tenantTrackers, s.tenant, o.id);
    }
  }

  lemma StepKept(w: World, s: Step, o: Owner, ref: TrackerRef)
    requires WorldOk(w) && Enabled(w, s) && Kept(w, o, ref) && (Applies(w, s) ==> AsksFor(s.c, o, ref.limit))
    ensures Kept(Next(w, s), o, ref)
  {
    if OfRuntime(s) {
      RuntimeStepHandsOut(w, s, o, ref, Next(w, s).rt);
      SameSlots(w, Next(w, s).rt, o, ref);
    } else {
      SlotStepKeeps(w, s, o, ref);
    }
  }

  /** The owner keeps one and the same tracker through every run whose installed configurations keep its limit. */
  lemma {:induction false} StaysKept(w: World, steps: seq<Step>, v: World, o: Owner, ref: TrackerRef)
    requires WorldOk(w) && Kept(w, o, ref) && Leads(w, steps, v) && Stays(w, steps, o, ref.limit)
    ensures WorldOk(v) && Kept(v, o, ref)
    decreases |steps|
  {
    if steps != [] {
      StepOk(w, steps[0]);
      StepKept(w, steps[0], o, ref);
      StaysKept(Next(w, steps[0]), steps[1..], v, o, ref);
    }
  }

  // ---- the limit ----

  /** The owner's connections and sessions that hold a slot of its limit. */
  ghost function LiveOf(w: World, o: Owner): set<Slots.HolderId> {
    set h | h in w.slots.holders && IsLive(w, h, o)
  }

  predicate IsLive(w: World, h: Slots.HolderId, o: Owner)
    requires h in w.slots.holders
  {
    var stage := w.slots.holders[h].stage;
    && Arrived(w, h, o)
    && if o.ByRule? then stage != Slots.Asking
       else stage == Slots.Holds || stage == Slots.InTable || stage == Slots.Leaving
  }

  /** The addresses they come from. */
  ghost function AddressesOf(w: World, o: Owner): set<Ip> {
    set h | h in LiveOf(w, o) :: w.slots.holders[h].ip
  }

  lemma LiveHold(w: World, o: Owner, ref: TrackerRef, h: Slots.HolderId)
    requires Kept(w, o, ref) && h in LiveOf(w, o)
    ensures Slots.HoldsSlot(w.slots.holders[h], IdOf(o, ref.id))
  {
    assert Arrived(w, h, o);
  }

  lemma WithinLimit(w: World, o: Owner, ref: TrackerRef)
    requires WorldOk(w) && Kept(w, o, ref)
    ensures ref.limit.maxConns > 0 ==> |LiveOf(w, o)| <= ref.limit.maxConns
    ensures ref.limit.maxIps > 0 ==> |AddressesOf(w, o)| <= ref.limit.maxIps
  {
    var t := IdOf(o, ref.id);
    if h :| h in LiveOf(w, o) {
      LiveHold(w, o, ref, h);
      assert Slots.HolderOk(w.slots.holders[h], w.slots.trackers);
      CountedLimits(w, o, ref, w.slots.trackers[t]);
    } else {
      assert LiveOf(w, o) == {} && AddressesOf(w, o) == {};
    }
  }

  lemma CountedLimits(w: World, o: Owner, ref: TrackerRef, r: Tracker)
    requires WorldOk(w) && Kept(w, o, ref)
    requires IdOf(o, ref.id) in w.slots.trackers && r == w.slots.trackers[IdOf(o, ref.id)]
    ensures ref.limit.maxConns > 0 ==> |LiveOf(w, o)| <= ref.limit.maxConns
    ensures ref.limit.maxIps > 0 ==> |AddressesOf(w, o)| <= ref.limit.maxIps
  {
    var t := IdOf(o, ref.id);
    assert Slots.Counted(r, w.slots.holders, t);
    forall h | h in LiveOf(w, o) ensures h in Slots.HoldersOf(w.slots.holders, t) && w.slots.holders[h].ip in r.ipCount {
      LiveHold(w, o, ref, h);
      AddressCounted(w.slots.holders, r, t, h);
    }
    SubsetSize(LiveOf(w, o), Slots.HoldersOf(w.slots.holders, t));
    SubsetSize(AddressesOf(w, o), r.ipCount.Keys);
  }

  lemma AddressCounted(holders: map<Slots.HolderId, Slots.Holder>, r: Tracker, t: Slots.TrackerId, h: Slots.HolderId)
    requires Slots.Counted(r, holders, t) && h in holders && Slots.HoldsSlot(holders[h], t)
    ensures holders[h].ip in r.ipCount
  {
    assert h in Slots.HoldersFrom(holders, t, holders[h].ip);
    assert Uses(r, holders[h].ip) == |Slots.HoldersFrom(holders, t, holders[h].ip)|;
  }

  /**
   * While no installed configuration changes the limit of a rule, or of a tenant, all its connections and sessions
   * together stay within MaxConns, and come from at most MaxIPs addresses.
   */
  lemma LimitSurvives(w: World, steps: seq<Step>, v: World, o: Owner, ref: TrackerRef)
    requires WorldOk(w) && Kept(w, o, ref) && Leads(w, steps, v) && Stays(w, steps, o, ref.limit)
    ensures ref.limit.maxConns > 0 ==> |LiveOf(v, o)| <= ref.limit.maxConns
    ensures ref.limit.maxIps > 0 ==> |AddressesOf(v, o)| <= ref.limit.maxIps
  {
    StaysKept(w, steps, v, o, ref);
    WithinLimit(v, o, ref);
  }

  // ---- from the very start ----

  const NEW: World := World(NOTHING_RUNS, Slots.NOTHING, map[])

  lemma NewOk()
    ensures WorldOk(NEW)
  {
    NewRuntimeOk();
  }

  /**
   * Nothing of the owner runs or drains, and all its connections and sessions are gone. The owner may have been there
   * before.
   */
  ghost predicate IsNew(w: World, o: Owner) {
    IsAbsent(w.rt, o) && forall h :: !Arrived(w, h, o)
  }

  /** The configuration that brings an owner on, again or for the first time, starts a count of its own. */
  lemma Starts(w: World, s: Step, o: Owner, k: Key, limit: Limit) returns (ref: TrackerRef)
    requires WorldOk(w) && Enabled(w, s) && Applies(w, s) && IsNew(w, o)
    requires DesiredOf(s.c).Ok? && AsksAt(DesiredOf(s.c).value, o, limit, k)
    ensures Kept(Next(w, s), o, ref) && ref.limit == limit
  {
    var b := Next(w, s).rt;
    ReconfigureOk(w, s, b);
    AsksForAll(s.c, o, limit, k);
    ref := OwnerStarts(w.rt, b, DesiredOf(s.c).value, o, limit, k);
    BeginsKept(w, b, o, ref);
  }

  lemma BeginsKept(w: World, b: State, o: Owner, ref: TrackerRef)
    requires HandsOut(b, o, ref) && (forall t | t in w.slots.trackers :: t.id < ref.id) && forall h :: !Arrived(w, h, o)
    ensures Kept(w.(rt := b), o, ref)
  {
    forall h ensures !Arrived(w.(rt := b), h, o) {
      assert !Arrived(w, h, o);
    }
  }

  /**
   * In every run of a new agent, from any configuration that brings a rule or a tenant on, and for as long as every
   * installed configuration has it with the same limit, its connections and sessions stay within it.
   */
  lemma LimitFromStart(before: seq<Step>, w: World, s: Step, steps: seq<Step>, v: World, o: Owner, k: Key, limit: Limit)
    requires Leads(NEW, before, w) && Enabled(w, s) && Applies(w, s) && IsNew(w, o)
    requires DesiredOf(s.c).Ok? && AsksAt(DesiredOf(s.c).value, o, limit, k)
    requires Leads(Next(w, s), steps, v) && Stays(Next(w, s), steps, o, limit)
    ensures limit.maxConns > 0 ==> |LiveOf(v, o)| <= limit.maxConns
    ensures limit.maxIps > 0 ==> |AddressesOf(v, o)| <= limit.maxIps
  {
    NewOk();
    RunOk(NEW, before, w);
    StepOk(w, s);
    var ref := Starts(w, s, o, k, limit);
    LimitSurvives(Next(w, s), steps, v, o, ref);
  }
}
