/**
 * Which tracker a listener hands to its connections: the one of its rule, and that of its tenant if the tenant has a
 * limit. While every applied configuration keeps an owner's limit, all listeners of the owner, draining ones
 * included, hand out one and the same tracker.
 */
module Handouts {
  import opened Common
  import opened Desired
  import opened Trackers
  import opened Runtime
  import opened ApplyFacts
  import opened Apply
  import opened Drains
  import opened LimitFacts

  /** Whose limit it is. */
  datatype Owner = ByRule(id: nat) | ByTenant(id: nat)

  predicate Owns(o: Owner, w: Wanted) {
    if o.ByRule? then w.rule.id == o.id else w.rule.tenant == Some(o.id)
  }

  function TableOf(a: State, o: Owner): TrackerTable {
    if o.ByRule? then a.trackers else a.tenantTrackers
  }

  function HandedOut(o: Owner, cfg: Config): Option<nat> {
    if o.ByRule? then Some(cfg.tracker) else cfg.tenantTracker
  }

  function LimitOf(o: Owner, w: Wanted): Limit {
    if o.ByRule? then w.limit else w.tenantLimit
  }

  /** A rule always has a tracker, a tenant only with a limit. */
  predicate Tracks(o: Owner, w: Wanted) {
    o.ByRule? || Limited(w)
  }

  /** Every listener of the owner hands out the tracker ref. */
  ghost predicate HandsOut(a: State, o: Owner, ref: TrackerRef) {
    && o.id in TableOf(a, o) && TableOf(a, o)[o.id] == ref
    && forall l | IsRunning(a, l) && Owns(o, l.cfg.want) :: HandedOut(o, l.cfg) == Some(ref.id)
  }

  /** The configuration has the owner with this limit. */
  ghost predicate AsksFor(c: AgentConfig, o: Owner, limit: Limit) {
    DesiredOf(c).Ok? && exists k :: AsksAt(DesiredOf(c).value, o, limit, k)
  }

  predicate AsksAt(want: Listening, o: Owner, limit: Limit, k: Key) {
    k in want && Owns(o, want[k]) && Tracks(o, want[k]) && LimitOf(o, want[k]) == limit
  }

  ghost predicate AllTrack(want: Listening, o: Owner) {
    forall j | j in want && Owns(o, want[j]) :: Tracks(o, want[j])
  }

  /** All rules of a tenant have its limit, or none has. */
  lemma AsksForAll(c: AgentConfig, o: Owner, limit: Limit, k: Key)
    requires DesiredOf(c).Ok? && AsksAt(DesiredOf(c).value, o, limit, k)
    ensures AllTrack(DesiredOf(c).value, o)
  {
    var want := DesiredOf(c).value;
    forall j | j in want && Owns(o, want[j]) ensures Tracks(o, want[j]) {
      if o.ByTenant? {
        TenantAlike(c, j, k);
      }
    }
  }

  /** The owner's tracker after an apply: the old one if its limit is the same, otherwise a new one. */
  lemma OwnersTracker(a: State, b: State, want: Listening, o: Owner, limit: Limit, k: Key)
    requires StateOk(b) && AppliedTo(a, b, want) && LimitsMatch(b) && AsksAt(want, o, limit, k)
    ensures o.id in TableOf(b, o) && TableOf(b, o)[o.id].limit == limit
    ensures if Reuses(TableOf(a, o), o.id, limit) then TableOf(b, o)[o.id] == TableOf(a, o)[o.id]
            else a.at.tracker <= TableOf(b, o)[o.id].id
  {
    assert ServedAs(a, b, want[k], b.listeners[k]) && ListenerOk(b, k, b.listeners[k]);
  }

  /** Draining listeners of the owner handed out ref before. */
  lemma DrainsHandOut(a: State, b: State, want: Listening, o: Owner, ref: TrackerRef, l: Listener)
    requires StateOk(a) && Leaves(a, b, want) && HandsOut(a, o, ref) && l in b.draining && Owns(o, l.cfg.want)
    ensures HandedOut(o, l.cfg) == Some(ref.id)
  {
    if l in a.draining {
      assert IsRunning(a, l);
    } else {
      var j := DrainCameFrom(a, b, want, l);
      assert IsRunning(a, a.listeners[j]);
    }
  }

  lemma AppliedHandsOut(a: State, b: State, want: Listening, o: Owner, ref: TrackerRef, k: Key)
    requires StateOk(a) && StateOk(b) && AppliedTo(a, b, want) && LimitsMatch(b) && AllTrack(want, o)
    requires HandsOut(a, o, ref) && AsksAt(want, o, ref.limit, k)
    ensures HandsOut(b, o, ref)
  {
    OwnersTracker(a, b, want, o, ref.limit, k);
    forall l | IsRunning(b, l) && Owns(o, l.cfg.want) ensures HandedOut(o, l.cfg) == Some(ref.id) {
      if l in b.draining {
        DrainsHandOut(a, b, want, o, ref, l);
      } else {
        RunsHandOut(a, b, want, o, l);
      }
    }
  }

  lemma RunsHandOut(a: State, b: State, want: Listening, o: Owner, l: Listener)
    requires AppliedTo(a, b, want) && AllTrack(want, o) && l in b.listeners.Values && Owns(o, l.cfg.want) && o.id in TableOf(b, o)
    ensures HandedOut(o, l.cfg) == Some(TableOf(b, o)[o.id].id)
  {
    var j :| j in b.listeners && b.listeners[j] == l;
    assert ServedAs(a, b, want[j], b.listeners[j]);
  }

  lemma UnaffectedHandsOut(a: State, b: State, o: Owner, ref: TrackerRef)
    requires HandsOut(a, o, ref) && Unaffected(a, b)
    ensures HandsOut(b, o, ref)
  {
    forall l | IsRunning(b, l) && Owns(o, l.cfg.want) ensures HandedOut(o, l.cfg) == Some(ref.id) {
      assert IsRunning(a, l);
    }
  }

  /** Ends of drains take listeners away and change nobody's tracker. */
  lemma StoppedHandsOut(a: State, l: Listener, o: Owner, ref: TrackerRef)
    requires HandsOut(a, o, ref)
    ensures HandsOut(DrainStopped(a, l), o, ref)
  {
    var b := DrainStopped(a, l);
    forall m | IsRunning(b, m) && Owns(o, m.cfg.want) ensures HandedOut(o, m.cfg) == Some(ref.id) {
      assert IsRunning(a, if m == l.(stage := Stopped) && l in a.draining then l else m);
    }
  }

  lemma ForgottenHandsOut(a: State, l: Listener, o: Owner, ref: TrackerRef)
    requires HandsOut(a, o, ref)
    ensures HandsOut(DrainForgotten(a, l), o, ref)
  {
    forall m | IsRunning(DrainForgotten(a, l), m) && Owns(o, m.cfg.want) ensures HandedOut(o, m.cfg) == Some(ref.id) {
      assert IsRunning(a, m);
    }
  }

  // ---- where it starts ----

  /** No listener of the owner runs or drains. */
  ghost predicate IsAbsent(a: State, o: Owner) {
    o.id !in TableOf(a, o) && forall l | IsRunning(a, l) :: !Owns(o, l.cfg.want)
  }

  /** A configuration that brings an owner on gives it a tracker of its own, with exactly its limit. */
  lemma OwnerStarts(a: State, b: State, want: Listening, o: Owner, limit: Limit, k: Key) returns (ref: TrackerRef)
    requires StateOk(a) && StateOk(b) && AppliedTo(a, b, want) && LimitsMatch(b) && AllTrack(want, o)
    requires IsAbsent(a, o) && AsksAt(want, o, limit, k)
    ensures HandsOut(b, o, ref) && ref.limit == limit && a.at.tracker <= ref.id
  {
    OwnersTracker(a, b, want, o, limit, k);
    ref := TableOf(b, o)[o.id];
    forall l | IsRunning(b, l) && Owns(o, l.cfg.want) ensures HandedOut(o, l.cfg) == Some(ref.id) {
      if l in b.draining {
        NoneDrains(a, b, want, o, l);
      } else {
        RunsHandOut(a, b, want, o, l);
      }
    }
  }

  lemma NoneDrains(a: State, b: State, want: Listening, o: Owner, l: Listener)
    requires StateOk(a) && Leaves(a, b, want) && IsAbsent(a, o) && l in b.draining
    ensures !Owns(o, l.cfg.want)
  {
    if l in a.draining {
      assert IsRunning(a, l);
    } else {
      var j := DrainCameFrom(a, b, want, l);
      assert IsRunning(a, a.listeners[j]);
    }
  }
}
