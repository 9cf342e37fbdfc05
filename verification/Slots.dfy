/**
 * Who holds which slot: connections and UDP sessions of all listeners, the trackers they took slots
 * from, and every way a session can be removed, interleaved between lock regions in any order.
 */
module Slots {
  import opened Common
  import opened Trackers

  datatype TrackerId = OfRule(id: nat) | OfTenant(id: nat)

  type HolderId = nat

  /**
   * How far an arrival has come. Asking has read its config; HoldsRule and Refused sit between the two
   * tracker locks; Holds serves a TCP connection or is still dialing a UDP session; InTable is a session
   * in its listener's map; Leaving and LeavingRule have stopped and still owe their releases.
   */
  datatype Stage = Asking | HoldsRule | Refused | Holds | InTable | Leaving | LeavingRule | Gone

  datatype Holder = Holder(rule: TrackerId, tenant: Option<TrackerId>, ip: Ip, listener: nat, key: string,
                           generation: nat, stage: Stage)

  datatype Slot = Slot(listener: nat, key: string)

  datatype System = System(trackers: map<TrackerId, Tracker>, holders: map<HolderId, Holder>, table: map<Slot, HolderId>)

  datatype Step =
    | MakeTracker(t: TrackerId, limit: Limit)
    | Arrive(h: HolderId, holder: Holder)
    | AskRule(h: HolderId)
    | AskTenant(h: HolderId)
    | GiveBack(h: HolderId)
    | Insert(h: HolderId, cap: nat)
    | Finish(h: HolderId)
    | CloseIdle(listener: nat, keys: set<string>)
    | CloseGeneration(listener: nat, generation: nat)
    | CloseAll(listener: nat)
    | RemoveSession(h: HolderId)
    | ReleaseTenant(h: HolderId)
    | ReleaseRule(h: HolderId)

  predicate AtStage(s: System, h: HolderId, stage: Stage) {
    h in s.holders && s.holders[h].stage == stage
  }

  function SlotOf(x: Holder): Slot {
    Slot(x.listener, x.key)
  }

  function SessionsOf(s: System, listener: nat): set<Slot> {
    set k | k in s.table && k.listener == listener
  }

  predicate Enabled(s: System, t: Step) {
    match t
    case MakeTracker(t, limit) => t !in s.trackers
    case Arrive(h, x) =>
      h !in s.holders && x.stage == Asking && x.rule.OfRule? && x.rule in s.trackers
      && (x.tenant.Some? ==> x.tenant.value.OfTenant? && x.tenant.value in s.trackers)
    case AskRule(h) => AtStage(s, h, Asking) && s.holders[h].rule in s.trackers
    case AskTenant(h) => AtStage(s, h, HoldsRule) && s.holders[h].tenant.Some? && s.holders[h].tenant.value in s.trackers
    case GiveBack(h) => AtStage(s, h, Refused) && s.holders[h].rule in s.trackers
    case Insert(h, cap) => AtStage(s, h, Holds)
    case Finish(h) => AtStage(s, h, Holds)
    case CloseIdle(l, keys) => true
    case CloseGeneration(l, g) => true
    case CloseAll(l) => true
    case RemoveSession(h) => h in s.holders
    case ReleaseTenant(h) => AtStage(s, h, Leaving) && (s.holders[h].tenant.Some? ==> s.holders[h].tenant.value in s.trackers)
    case ReleaseRule(h) => AtStage(s, h, LeavingRule) && s.holders[h].rule in s.trackers
  }

  function Move(s: System, h: HolderId, stage: Stage): System
    requires h in s.holders
  {
    s.(holders := s.holders[h := s.holders[h].(stage := stage)])
  }

  /** One critical section under the listener's lock: the sessions in gone leave the map. */
  function Detach(s: System, gone: set<Slot>): System {
    s.(table := s.table - gone,
       holders := map h | h in s.holders ::
         if s.holders[h].stage == InTable && SlotOf(s.holders[h]) in gone && SlotOf(s.holders[h]) in s.table
            && s.table[SlotOf(s.holders[h])] == h
         then s.holders[h].(stage := Leaving) else s.holders[h])
  }

  function OfGeneration(s: System, listener: nat, generation: nat): set<Slot> {
    set k | k in s.table && k.listener == listener && s.table[k] in s.holders
            && s.holders[s.table[k]].generation == generation
  }

  function Next(s: System, t: Step): System
    requires Enabled(s, t)
  {
    match t
    case MakeTracker(t, limit) => s.(trackers := s.trackers[t := NewTracker(limit)])
    case Arrive(h, x) => s.(holders := s.holders[h := x])
    case AskRule(h) =>
      var x := s.holders[h];
      if Admits(s.trackers[x.rule], x.ip)
      then Move(s.(trackers := s.trackers[x.rule := Acquired(s.trackers[x.rule], x.ip)]), h,
                if x.tenant.Some? then HoldsRule else Holds)
      else Move(s, h, Gone)
    case AskTenant(h) =>
      var x := s.holders[h]; var t := x.tenant.value;
      if Admits(s.trackers[t], x.ip)
      then Move(s.(trackers := s.trackers[t := Acquired(s.trackers[t], x.ip)]), h, Holds)
      else Move(s, h, Refused)
    case GiveBack(h) =>
      var x := s.holders[h];
      Move(s.(trackers := s.trackers[x.rule := Released(s.trackers[x.rule], x.ip)]), h, Gone)
    case Insert(h, cap) =>
      var k := SlotOf(s.holders[h]);
      if k in s.table || (cap > 0 && |SessionsOf(s, k.listener)| >= cap) then Move(s, h, Leaving)
      else Move(s.(table := s.table[k := h]), h, InTable)
    case Finish(h) => Move(s, h, Leaving)
    case CloseIdle(l, keys) => Detach(s, set k | k in SessionsOf(s, l) && k.key in keys)
    case CloseGeneration(l, g) => Detach(s, OfGeneration(s, l, g))
    case CloseAll(l) => Detach(s, SessionsOf(s, l))
    case RemoveSession(h) =>
      var k := SlotOf(s.holders[h]);
      if k in s.table && s.table[k] == h then Detach(s, {k}) else s
    case ReleaseTenant(h) =>
      var x := s.holders[h];
      if x.tenant.None? then Move(s, h, LeavingRule)
      else Move(s.(trackers := s.trackers[x.tenant.value := Released(s.trackers[x.tenant.value], x.ip)]), h, LeavingRule)
    case ReleaseRule(h) =>
      var x := s.holders[h];
      Move(s.(trackers := s.trackers[x.rule := Released(s.trackers[x.rule], x.ip)]), h, Gone)
  }

  ghost predicate Leads(s: System, steps: seq<Step>, v: System)
    decreases |steps|
  {
    if steps == [] then s == v else Enabled(s, steps[0]) && Leads(Next(s, steps[0]), steps[1..], v)
  }

  // ---- who holds a tracker ----

  predicate HoldsSlot(x: Holder, t: TrackerId) {
    || (x.rule == t && x.stage != Asking && x.stage != Gone)
    || (x.tenant == Some(t) && (x.stage == Holds || x.stage == InTable || x.stage == Leaving))
  }

  ghost function HoldersOf(holders: map<HolderId, Holder>, t: TrackerId): set<HolderId> {
    set h | h in holders && HoldsSlot(holders[h], t)
  }

  ghost function HoldersFrom(holders: map<HolderId, Holder>, t: TrackerId, ip: Ip): set<HolderId> {
    set h | h in holders && HoldsSlot(holders[h], t) && holders[h].ip == ip
  }

  /** The tracker counts exactly its holders, in total and per address, within its limits. */
  ghost predicate Counted(r: Tracker, holders: map<HolderId, Holder>, t: TrackerId) {
    && TrackerOk(r)
    && r.active == |HoldersOf(holders, t)|
    && forall ip :: Uses(r, ip) == |HoldersFrom(holders, t, ip)|
  }

  /** The listener maps hold exactly the sessions that believe they are in them. */
  ghost predicate TableOk(s: System) {
    && (forall k | k in s.table :: AtStage(s, s.table[k], InTable) && SlotOf(s.holders[s.table[k]]) == k)
    && (forall h | AtStage(s, h, InTable) :: SlotOf(s.holders[h]) in s.table && s.table[SlotOf(s.holders[h])] == h)
  }

  predicate HolderOk(x: Holder, trackers: map<TrackerId, Tracker>) {
    && x.rule.OfRule? && x.rule in trackers
    && (x.tenant.Some? ==> x.tenant.value.OfTenant? && x.tenant.value in trackers)
    && (x.stage == HoldsRule || x.stage == Refused ==> x.tenant.Some?)
  }

  ghost predicate HoldersOk(s: System) {
    forall h | h in s.holders :: HolderOk(s.holders[h], s.trackers)
  }

  ghost predicate AllCounted(s: System) {
    forall t {:trigger Counted(s.trackers[t], s.holders, t)} | t in s.trackers :: Counted(s.trackers[t], s.holders, t)
  }

  ghost predicate SlotsOk(s: System) {
    HoldersOk(s) && TableOk(s) && AllCounted(s)
  }

  // ---- one holder moves ----

  /** Only h changes, and it keeps its address; it may be new. */
  ghost predicate OnlyMoves(a: map<HolderId, Holder>, b: map<HolderId, Holder>, h: HolderId) {
    && b.Keys == a.Keys + {h}
    && (forall g | g in a && g != h :: b[g] == a[g])
    && (h in a ==> b[h].ip == a[h].ip)
  }

  lemma OneMore(a: set<HolderId>, b: set<HolderId>, h: HolderId)
    requires h !in a && forall g :: g in b <==> g in a || g == h
    ensures |b| == |a| + 1
  {
    assert b == a + {h};
  }

  lemma SameSet(a: set<HolderId>, b: set<HolderId>)
    requires forall g :: g in b <==> g in a
    ensures a == b
  {
  }

  lemma Joins(a: map<HolderId, Holder>, b: map<HolderId, Holder>, h: HolderId, t: TrackerId, ip: Ip)
    requires OnlyMoves(a, b, h) && h in a && !HoldsSlot(a[h], t) && HoldsSlot(b[h], t)
    ensures |HoldersOf(b, t)| == |HoldersOf(a, t)| + 1
    ensures |HoldersFrom(b, t, ip)| == |HoldersFrom(a, t, ip)| + if ip == b[h].ip then 1 else 0
  {
    OneMore(HoldersOf(a, t), HoldersOf(b, t), h);
    if ip == b[h].ip {
      OneMore(HoldersFrom(a, t, ip), HoldersFrom(b, t, ip), h);
    } else {
      SameSet(HoldersFrom(a, t, ip), HoldersFrom(b, t, ip));
    }
  }

  lemma Quits(a: map<HolderId, Holder>, b: map<HolderId, Holder>, h: HolderId, t: TrackerId, ip: Ip)
    requires OnlyMoves(a, b, h) && h in a && HoldsSlot(a[h], t) && !HoldsSlot(b[h], t)
    ensures |HoldersOf(b, t)| == |HoldersOf(a, t)| - 1
    ensures |HoldersFrom(b, t, ip)| == |HoldersFrom(a, t, ip)| - if ip == b[h].ip then 1 else 0
  {
    OneMore(HoldersOf(b, t), HoldersOf(a, t), h);
    if ip == b[h].ip {
      OneMore(HoldersFrom(b, t, ip), HoldersFrom(a, t, ip), h);
    } else {
      SameSet(HoldersFrom(a, t, ip), HoldersFrom(b, t, ip));
    }
  }

  lemma Gains(r: Tracker, a: map<HolderId, Holder>, b: map<HolderId, Holder>, h: HolderId, t: TrackerId)
    requires Counted(r, a, t) && OnlyMoves(a, b, h) && Admits(r, b[h].ip)
    requires h in a && !HoldsSlot(a[h], t) && HoldsSlot(b[h], t)
    ensures Counted(Acquired(r, b[h].ip), b, t)
  {
    AcquiredOk(r, b[h].ip);
    Joins(a, b, h, t, b[h].ip);
    forall ip ensures Uses(Acquired(r, b[h].ip), ip) == |HoldersFrom(b, t, ip)| {
      Joins(a, b, h, t, ip);
    }
  }

  /** A release by a real holder finds its count above zero, so the clamps in release never act. */
  lemma Loses(r: Tracker, a: map<HolderId, Holder>, b: map<HolderId, Holder>, h: HolderId, t: TrackerId)
    requires Counted(r, a, t) && OnlyMoves(a, b, h)
    requires h in a && HoldsSlot(a[h], t) && !HoldsSlot(b[h], t)
    ensures r.active >= 1 && Uses(r, b[h].ip) >= 1
    ensures Counted(Released(r, b[h].ip), b, t)
  {
    Quits(a, b, h, t, b[h].ip);
    ReleasedOk(r, b[h].ip);
    forall ip ensures Uses(Released(r, b[h].ip), ip) == |HoldersFrom(b, t, ip)| {
      Quits(a, b, h, t, ip);
    }
  }

  /** Holders may change in any way that leaves who holds t, and from where, alone. */
  lemma SameCount(r: Tracker, a: map<HolderId, Holder>, b: map<HolderId, Holder>, t: TrackerId)
    requires Counted(r, a, t)
    requires forall h | h in a && HoldsSlot(a[h], t) :: h in b && HoldsSlot(b[h], t) && b[h].ip == a[h].ip
    requires forall h | h in b && HoldsSlot(b[h], t) :: h in a && HoldsSlot(a[h], t)
    ensures Counted(r, b, t)
  {
    assert HoldersOf(b, t) == HoldersOf(a, t);
    forall ip ensures Uses(r, ip) == |HoldersFrom(b, t, ip)| {
      assert HoldersFrom(b, t, ip) == HoldersFrom(a, t, ip);
    }
  }

  // ---- every step ----

  lemma MoveCounts(s: System, v: System, h: HolderId, changed: Option<TrackerId>)
    requires AllCounted(s) && h in s.holders && OnlyMoves(s.holders, v.holders, h)
    requires s.trackers.Keys == v.trackers.Keys
    requires forall t | t in s.trackers && changed != Some(t) ::
               v.trackers[t] == s.trackers[t] && (HoldsSlot(v.holders[h], t) <==> HoldsSlot(s.holders[h], t))
    requires changed.Some? ==> changed.value in s.trackers && Counted(v.trackers[changed.value], v.holders, changed.value)
    ensures AllCounted(v)
  {
    forall t | t in v.trackers ensures Counted(v.trackers[t], v.holders, t) {
      if changed != Some(t) {
        SameCount(s.trackers[t], s.holders, v.holders, t);
      }
    }
  }

  lemma TakesCount(s: System, h: HolderId, t: TrackerId, stage: Stage)
    requires AllCounted(s) && h in s.holders && t in s.trackers && Admits(s.trackers[t], s.holders[h].ip)
    requires !HoldsSlot(s.holders[h], t) && HoldsSlot(s.holders[h].(stage := stage), t)
    requires forall u | u in s.trackers && u != t ::
               HoldsSlot(s.holders[h].(stage := stage), u) <==> HoldsSlot(s.holders[h], u)
    ensures AllCounted(Move(s.(trackers := s.trackers[t := Acquired(s.trackers[t], s.holders[h].ip)]), h, stage))
  {
    var v := Move(s.(trackers := s.trackers[t := Acquired(s.trackers[t], s.holders[h].ip)]), h, stage);
    Gains(s.trackers[t], s.holders, v.holders, h, t);
    MoveCounts(s, v, h, Some(t));
  }

  lemma ReturnsCount(s: System, h: HolderId, t: TrackerId, stage: Stage)
    requires AllCounted(s) && h in s.holders && t in s.trackers
    requires HoldsSlot(s.holders[h], t) && !HoldsSlot(s.holders[h].(stage := stage), t)
    requires forall u | u in s.trackers && u != t ::
               HoldsSlot(s.holders[h].(stage := stage), u) <==> HoldsSlot(s.holders[h], u)
    ensures AllCounted(Move(s.(trackers := s.trackers[t := Released(s.trackers[t], s.holders[h].ip)]), h, stage))
  {
    var v := Move(s.(trackers := s.trackers[t := Released(s.trackers[t], s.holders[h].ip)]), h, stage);
    Loses(s.trackers[t], s.holders, v.holders, h, t);
    MoveCounts(s, v, h, Some(t));
  }

  /** Steps that move one holder between stages holding the same slots. */
  lemma PlainMoveCounts(s: System, v: System, h: HolderId)
    requires AllCounted(s) && h in s.holders && OnlyMoves(s.holders, v.holders, h) && v.trackers == s.trackers
    requires forall t :: HoldsSlot(v.holders[h], t) <==> HoldsSlot(s.holders[h], t)
    ensures AllCounted(v)
  {
    MoveCounts(s, v, h, None);
  }

  /** Cutting sessions out of the map changes no slot: they still owe their releases. */
  lemma DetachCounts(s: System, gone: set<Slot>)
    requires AllCounted(s)
    ensures AllCounted(Detach(s, gone))
  {
    forall t | t in s.trackers ensures Counted(s.trackers[t], Detach(s, gone).holders, t) {
      SameCount(s.trackers[t], s.holders, Detach(s, gone).holders, t);
    }
  }

  lemma DetachShapes(s: System, gone: set<Slot>)
    requires HoldersOk(s) && TableOk(s)
    ensures HoldersOk(Detach(s, gone)) && TableOk(Detach(s, gone))
  {
  }

  lemma MakeTrackerCounts(s: System, t: TrackerId, limit: Limit)
    requires SlotsOk(s) && t !in s.trackers
    ensures AllCounted(s.(trackers := s.trackers[t := NewTracker(limit)]))
  {
    assert HoldersOf(s.holders, t) == {};
    assert forall ip :: HoldersFrom(s.holders, t, ip) == {};
  }

  lemma ArriveCounts(s: System, h: HolderId, x: Holder)
    requires AllCounted(s) && h !in s.holders && x.stage == Asking
    ensures AllCounted(s.(holders := s.holders[h := x]))
  {
    forall t | t in s.trackers ensures Counted(s.trackers[t], s.holders[h := x], t) {
      SameCount(s.trackers[t], s.holders, s.holders[h := x], t);
    }
  }

  lemma TakingCounts(s: System, t: Step)
    requires SlotsOk(s) && Enabled(s, t) && (t.AskRule? || t.AskTenant?)
    ensures AllCounted(Next(s, t))
  {
    var x := s.holders[t.h];
    if t.AskRule? && Admits(s.trackers[x.rule], x.ip) {
      TakesCount(s, t.h, x.rule, if x.tenant.Some? then HoldsRule else Holds);
    } else if t.AskTenant? && Admits(s.trackers[x.tenant.value], x.ip) {
      TakesCount(s, t.h, x.tenant.value, Holds);
    } else {
      PlainMoveCounts(s, Next(s, t), t.h);
    }
  }

  lemma ReturningCounts(s: System, t: Step)
    requires SlotsOk(s) && Enabled(s, t) && (t.GiveBack? || t.ReleaseTenant? || t.ReleaseRule?)
    ensures AllCounted(Next(s, t))
  {
    var x := s.holders[t.h];
    assert HolderOk(x, s.trackers);
    if t.ReleaseTenant? {
      if x.tenant.Some? {
        ReturnsCount(s, t.h, x.tenant.value, LeavingRule);
      } else {
        PlainMoveCounts(s, Next(s, t), t.h);
      }
    } else {
      ReturnsCount(s, t.h, x.rule, Gone);
    }
  }

  lemma DetachingKeeps(s: System, t: Step)
    requires SlotsOk(s) && Enabled(s, t) && (t.CloseIdle? || t.CloseGeneration? || t.CloseAll? || t.RemoveSession?)
    ensures SlotsOk(Next(s, t))
  {
    var gone :=
      match t
      case CloseIdle(l, keys) => set k | k in SessionsOf(s, l) && k.key in keys
      case CloseGeneration(l, g) => OfGeneration(s, l, g)
      case CloseAll(l) => SessionsOf(s, l)
      case RemoveSession(h) => {SlotOf(s.holders[h])}
      case _ => {};
    DetachCounts(s, gone);
    DetachShapes(s, gone);
  }

  lemma MovingShapes(s: System, v: System, h: HolderId)
    requires HoldersOk(s) && TableOk(s) && h in s.holders && OnlyMoves(s.holders, v.holders, h)
    requires v.trackers.Keys == s.trackers.Keys && HolderOk(v.holders[h], v.trackers)
    requires s.holders[h].stage != InTable && SlotOf(s.holders[h]) == SlotOf(v.holders[h])
    requires if v.holders[h].stage == InTable then SlotOf(v.holders[h]) !in s.table && v.table == s.table[SlotOf(v.holders[h]) := h]
             else v.table == s.table
    ensures HoldersOk(v) && TableOk(v)
  {
    forall k | k in v.table ensures AtStage(v, v.table[k], InTable) && SlotOf(v.holders[v.table[k]]) == k {
    }
    forall g | AtStage(v, g, InTable) ensures SlotOf(v.holders[g]) in v.table && v.table[SlotOf(v.holders[g])] == g {
      if g != h {
        assert AtStage(s, g, InTable);
      }
    }
  }

  lemma EnteringKeeps(s: System, t: Step)
    requires SlotsOk(s) && Enabled(s, t) && (t.MakeTracker? || t.Arrive?)
    ensures SlotsOk(Next(s, t))
  {
    if t.MakeTracker? {
      MakeTrackerCounts(s, t.t, t.limit);
    } else {
      ArriveCounts(s, t.h, t.holder);
    }
  }

  lemma TakingShapes(s: System, t: Step)
    requires SlotsOk(s) && Enabled(s, t) && (t.AskRule? || t.AskTenant?)
    ensures HoldersOk(Next(s, t)) && TableOk(Next(s, t))
  {
    MovingShapes(s, Next(s, t), t.h);
  }

  lemma ReturningShapes(s: System, t: Step)
    requires SlotsOk(s) && Enabled(s, t) && (t.GiveBack? || t.ReleaseTenant? || t.ReleaseRule?)
    ensures HoldersOk(Next(s, t)) && TableOk(Next(s, t))
  {
    MovingShapes(s, Next(s, t), t.h);
  }

  lemma SettlingKeeps(s: System, t: Step)
    requires SlotsOk(s) && Enabled(s, t) && (t.Insert? || t.Finish?)
    ensures SlotsOk(Next(s, t))
  {
    PlainMoveCounts(s, Next(s, t), t.h);
    MovingShapes(s, Next(s, t), t.h);
  }

  /** Every step keeps every count, whatever the interleaving. */
  lemma StepKeeps(s: System, t: Step)
    requires SlotsOk(s) && Enabled(s, t)
    ensures SlotsOk(Next(s, t))
  {
    if t.AskRule? || t.AskTenant? {
      TakingCounts(s, t);
      TakingShapes(s, t);
    } else if t.GiveBack? || t.ReleaseTenant? || t.ReleaseRule? {
      ReturningCounts(s, t);
      ReturningShapes(s, t);
    } else if t.Insert? || t.Finish? {
      SettlingKeeps(s, t);
    } else if t.MakeTracker? || t.Arrive? {
      EnteringKeeps(s, t);
    } else {
      DetachingKeeps(s, t);
    }
  }

  // ---- whole runs ----

  const NOTHING := System(map[], map[], map[])

  /** From a runtime without trackers, over any interleaving. */
  lemma {:induction false} SlotsAlwaysCounted(s: System, steps: seq<Step>, v: System)
    requires SlotsOk(s) && Leads(s, steps, v)
    ensures SlotsOk(v)
    decreases |steps|
  {
    if steps != [] {
      StepKeeps(s, steps[0]);
      SlotsAlwaysCounted(Next(s, steps[0]), steps[1..], v);
    }
  }

  /**
   * At every point of every run a tracker's count is the number of connections and sessions holding it,
   * the per-address counts add up to it, and neither exceeds the limits.
   */
  lemma LimitsHold(steps: seq<Step>, v: System, t: TrackerId)
    requires Leads(NOTHING, steps, v) && t in v.trackers
    ensures var r := v.trackers[t];
      && r.active == |HoldersOf(v.holders, t)| == Total(r.ipCount)
      && (forall ip :: Uses(r, ip) == |HoldersFrom(v.holders, t, ip)|)
      && (r.limit.maxConns > 0 ==> |HoldersOf(v.holders, t)| <= r.limit.maxConns)
      && (r.limit.maxIps > 0 ==> |r.ipCount| <= r.limit.maxIps)
  {
    SlotsAlwaysCounted(NOTHING, steps, v);
    assert Counted(v.trackers[t], v.holders, t);
  }

  /** The addresses a tracker's holders come from. */
  ghost function AddressesOf(holders: map<HolderId, Holder>, t: TrackerId): set<Ip> {
    set h | h in HoldersOf(holders, t) :: holders[h].ip
  }

  lemma AddressesCounted(r: Tracker, holders: map<HolderId, Holder>, t: TrackerId)
    requires Counted(r, holders, t)
    ensures AddressesOf(holders, t) == r.ipCount.Keys
  {
    forall ip ensures ip in AddressesOf(holders, t) <==> ip in r.ipCount {
      assert Uses(r, ip) == |HoldersFrom(holders, t, ip)|;
      if h :| h in HoldersOf(holders, t) && holders[h].ip == ip {
        assert h in HoldersFrom(holders, t, ip);
      }
      if ip in r.ipCount {
        var h :| h in HoldersFrom(holders, t, ip);
        assert h in HoldersOf(holders, t);
      }
    }
  }

  /** No slot is left for an arrival from this address: as many holders, or as many other addresses, as allowed. */
  ghost predicate Full(s: System, t: TrackerId, ip: Ip)
    requires t in s.trackers
  {
    var limit := s.trackers[t].limit;
    || (limit.maxConns > 0 && |HoldersOf(s.holders, t)| >= limit.maxConns)
    || (limit.maxIps > 0 && ip !in AddressesOf(s.holders, t) && |AddressesOf(s.holders, t)| >= limit.maxIps)
  }

  /** In every run an arrival is turned away exactly when one of its two limits is reached, and otherwise gets its slot. */
  lemma TurnedAwayWhenFull(steps: seq<Step>, v: System, t: Step)
    requires Leads(NOTHING, steps, v) && Enabled(v, t) && (t.AskRule? || t.AskTenant?)
    ensures var x, stage := v.holders[t.h], Next(v, t).holders[t.h].stage;
      if t.AskRule? then stage == if Full(v, x.rule, x.ip) then Gone else if x.tenant.Some? then HoldsRule else Holds
      else stage == if Full(v, x.tenant.value, x.ip) then Refused else Holds
  {
    SlotsAlwaysCounted(NOTHING, steps, v);
    var x := v.holders[t.h];
    var asked := if t.AskRule? then x.rule else x.tenant.value;
    assert Counted(v.trackers[asked], v.holders, asked);
    RefusesWhenFull(v.trackers[asked], x.ip);
    AddressesCounted(v.trackers[asked], v.holders, asked);
  }

  // ---- the sessions of a listener ----

  /** The step takes this session out of its listener's map. */
  predicate Cuts(t: Step, h: HolderId, x: Holder) {
    match t
    case CloseIdle(l, keys) => x.listener == l && x.key in keys
    case CloseGeneration(l, g) => x.listener == l && x.generation == g
    case CloseAll(l) => x.listener == l
    case RemoveSession(gone) => h == gone
    case _ => false
  }

  /** Closing takes out exactly the sessions it names, and each of them still owes its slots. */
  lemma ClosesExactly(s: System, t: Step, h: HolderId)
    requires SlotsOk(s) && Enabled(s, t) && h in s.holders
    requires t.CloseIdle? || t.CloseGeneration? || t.CloseAll? || t.RemoveSession?
    ensures h in Next(s, t).holders
    ensures var x := s.holders[h];
            Next(s, t).holders[h] == if x.stage == InTable && Cuts(t, h, x) then x.(stage := Leaving) else x
    ensures Next(s, t).trackers == s.trackers
  {
    if s.holders[h].stage == InTable {
      assert SlotOf(s.holders[h]) in s.table && s.table[SlotOf(s.holders[h])] == h;
    }
  }

  /** A session enters the map unless another one has its key there or the listener has reached its cap. */
  lemma InsertsUnlessTaken(s: System, h: HolderId, cap: nat)
    requires SlotsOk(s) && Enabled(s, Insert(h, cap))
    ensures var x, now := s.holders[h], Next(s, Insert(h, cap)).holders[h].stage;
            var taken := exists g | AtStage(s, g, InTable) :: s.holders[g].listener == x.listener && s.holders[g].key == x.key;
            var full := cap > 0 && |set k | k in s.table && k.listener == x.listener| >= cap;
            now == if taken || full then Leaving else InTable
  {
    var x := s.holders[h];
    if SlotOf(x) in s.table {
      assert AtStage(s, s.table[SlotOf(x)], InTable);
    }
    forall g | AtStage(s, g, InTable) && s.holders[g].listener == x.listener && s.holders[g].key == x.key
      ensures SlotOf(x) in s.table
    {
      assert SlotOf(s.holders[g]) in s.table;
    }
    assert SessionsOf(s, x.listener) == (set k | k in s.table && k.listener == x.listener);
  }

  /** The slot a step gives back, if it gives one back. */
  function GivenBack(s: System, step: Step): Option<TrackerId>
    requires Enabled(s, step)
  {
    match step
    case GiveBack(h) => Some(s.holders[h].rule)
    case ReleaseTenant(h) => s.holders[h].tenant
    case ReleaseRule(h) => Some(s.holders[h].rule)
    case _ => None
  }

  /** Slots are released exactly once: no release of any run meets a count that is already zero. */
  lemma NoReleaseIsSpurious(steps: seq<Step>, v: System, step: Step)
    requires Leads(NOTHING, steps, v) && Enabled(v, step) && GivenBack(v, step).Some?
    ensures var t := GivenBack(v, step).value;
      t in v.trackers && v.trackers[t].active >= 1 && Uses(v.trackers[t], v.holders[step.h].ip) >= 1
  {
    SlotsAlwaysCounted(NOTHING, steps, v);
    var t := GivenBack(v, step).value;
    assert HolderOk(v.holders[step.h], v.trackers);
    assert Counted(v.trackers[t], v.holders, t);
    assert step.h in HoldersFrom(v.holders, t, v.holders[step.h].ip);
    assert step.h in HoldersOf(v.holders, t);
  }

  // ---- the session cap of a listener ----

  ghost predicate CapOk(s: System, cap: nat) {
    forall l :: |SessionsOf(s, l)| <= cap
  }

  lemma StepKeepsCap(s: System, t: Step, cap: nat)
    requires CapOk(s, cap) && cap > 0 && Enabled(s, t) && (t.Insert? ==> t.cap == cap)
    ensures CapOk(Next(s, t), cap)
  {
    var v := Next(s, t);
    forall l ensures |SessionsOf(v, l)| <= cap {
      if t.Insert? && l == s.holders[t.h].listener && SlotOf(s.holders[t.h]) in v.table && SlotOf(s.holders[t.h]) !in s.table {
        assert SessionsOf(v, l) == SessionsOf(s, l) + {SlotOf(s.holders[t.h])};
      } else {
        SubsetSize(SessionsOf(v, l), SessionsOf(s, l));
      }
    }
  }

  /** No listener's map ever exceeds the configured cap, although it is checked twice around a dial. */
  lemma {:induction false} SessionCapHolds(s: System, steps: seq<Step>, v: System, cap: nat)
    requires cap > 0 && CapOk(s, cap) && Leads(s, steps, v)
    requires forall k | 0 <= k < |steps| :: steps[k].Insert? ==> steps[k].cap == cap
    ensures CapOk(v, cap)
    decreases |steps|
  {
    if steps != [] {
      StepKeepsCap(s, steps[0], cap);
      SessionCapHolds(Next(s, steps[0]), steps[1..], v, cap);
    }
  }

  lemma EmptyTracker(r: Tracker, holders: map<HolderId, Holder>, t: TrackerId)
    requires Counted(r, holders, t) && forall h | h in holders :: !HoldsSlot(holders[h], t)
    ensures r.active == 0 && r.ipCount == map[]
  {
    assert HoldersOf(holders, t) == {};
    forall ip ensures ip !in r.ipCount {
      assert HoldersFrom(holders, t, ip) == {};
      assert Uses(r, ip) == 0;
    }
  }

  /** Once everyone is gone no slot is left behind: the tracker is as good as new. */
  lemma NoSlotLeaks(steps: seq<Step>, v: System, t: TrackerId)
    requires Leads(NOTHING, steps, v) && t in v.trackers
    requires forall h | h in v.holders :: v.holders[h].stage == Gone
    ensures v.trackers[t] == NewTracker(v.trackers[t].limit)
  {
    SlotsAlwaysCounted(NOTHING, steps, v);
    EmptyTracker(v.trackers[t], v.holders, t);
  }
}
