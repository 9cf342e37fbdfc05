/**
 * The flow table of the nDPI engine: a map of flows and a list from the least to the most recently used, of
 * which only the front is ever looked at when flows expire.
 */
module FlowTable {
  import opened Common

  type FlowId = string

  const TWO_32: int := 0x1_0000_0000

  /** A Go uint32. */
  type Uint32 = x: int | 0 <= x < 0x1_0000_0000

  /** What libndpi answered: a protocol label and whether its detection is complete. */
  datatype Raw = Raw(name: string, complete: bool)

  datatype Verdict = Verdict(name: string, packets: nat, final: bool)

  /** up and down: the next TCP sequence numbers from client and server. */
  datatype Flow = Flow(lastSeen: int, packets: nat, up: Uint32, down: Uint32, final: bool, verdict: Verdict)

  datatype Options = Options(maxFlows: int, ttl: int, maxPackets: int)

  datatype Table = Table(flows: map<FlowId, Flow>, lru: seq<FlowId>, processed: nat, evicted: nat, expired: nat)

  datatype Direction = ClientToServer | ServerToClient

  datatype Packet = Packet(id: FlowId, direction: Direction, size: nat, raw: Raw, giveup: Raw)

  const NEW_FLOW: Flow := Flow(0, 0, 0, 0, false, Verdict("", 0, false))

  // ---- the list ----

  function Without(s: seq<FlowId>, id: FlowId): seq<FlowId> {
    if s == [] then [] else if s[0] == id then Without(s[1..], id) else [s[0]] + Without(s[1..], id)
  }

  function Removed(t: Table, id: FlowId): Table {
    if id !in t.flows then t else t.(flows := t.flows - {id}, lru := Without(t.lru, id))
  }

  predicate Idle(o: Options, f: Flow, now: int) {
    now - f.lastSeen >= o.ttl
  }

  /** expireLocked: while the front of the list is idle, remove it. */
  function Expired(o: Options, t: Table, now: int): Table
    decreases |t.flows|
  {
    if t.lru == [] || t.lru[0] !in t.flows || !Idle(o, t.flows[t.lru[0]], now) then t
    else
      var next := Removed(t, t.lru[0]);
      assert next.flows.Keys == t.flows.Keys - {t.lru[0]};
      Expired(o, next.(expired := t.expired + 1), now)
  }

  function WithRoom(o: Options, t: Table): Table {
    if |t.flows| < o.maxFlows || t.lru == [] then t
    else Removed(t, t.lru[0]).(evicted := t.evicted + 1)
  }

  /** The flow after one packet of it went through detection. */
  function Fed(o: Options, f: Flow, p: Packet, now: int): Flow {
    var packets := f.packets + 1;
    var final := p.raw.complete || packets >= o.maxPackets;
    var raw := if !p.raw.complete && packets >= o.maxPackets then p.giveup else p.raw;
    Flow(now, packets,
         if p.direction == ClientToServer then (f.up + p.size) % TWO_32 else f.up,
         if p.direction == ServerToClient then (f.down + p.size) % TWO_32 else f.down,
         final, Verdict(raw.name, packets, final))
  }

  /** A packet of an unknown flow, an ephemeral one if it has no id; allocation may fail. */
  function ClassifiedNew(o: Options, t: Table, p: Packet, now: int, memory: bool): (Table, Option<Verdict>) {
    if p.id == "" then
      if memory then (t.(processed := t.processed + 1), Some(Fed(o, NEW_FLOW, p, now).verdict)) else (t, None)
    else
      var room := WithRoom(o, t);
      if !memory then (room, None)
      else
        var f := Fed(o, NEW_FLOW, p, now);
        (room.(flows := room.flows[p.id := f], lru := room.lru + [p.id], processed := room.processed + 1), Some(f.verdict))
  }

  function ClassifiedKnown(o: Options, t: Table, p: Packet, now: int): (Table, Option<Verdict>)
    requires p.id in t.flows
  {
    var f := t.flows[p.id];
    var moved := t.(lru := Without(t.lru, p.id) + [p.id]);
    if f.final then (moved.(flows := t.flows[p.id := f.(lastSeen := now)]), Some(f.verdict))
    else
      var fed := Fed(o, f, p, now);
      (moved.(flows := t.flows[p.id := fed], processed := t.processed + 1), Some(fed.verdict))
  }

  function Classified(o: Options, t: Table, p: Packet, now: int, memory: bool): (Table, Option<Verdict>) {
    var live := Expired(o, t, now);
    if p.id != "" && p.id in live.flows then ClassifiedKnown(o, live, p, now) else ClassifiedNew(o, live, p, now, memory)
  }

  // ---- what the table keeps ----

  predicate Differ(s: seq<FlowId>, i: int, j: int) {
    0 <= i < j < |s| ==> s[i] != s[j]
  }

  ghost predicate Distinct(s: seq<FlowId>) {
    forall i, j :: Differ(s, i, j)
  }

  predicate Listed(s: seq<FlowId>, flows: map<FlowId, Flow>) {
    forall id | id in s :: id in flows
  }

  predicate NotAfter(s: seq<FlowId>, flows: map<FlowId, Flow>, i: int, j: int)
    requires Listed(s, flows)
  {
    0 <= i < j < |s| ==> flows[s[i]].lastSeen <= flows[s[j]].lastSeen
  }

  /** In the order of last use. */
  ghost predicate Ordered(s: seq<FlowId>, flows: map<FlowId, Flow>)
    requires Listed(s, flows)
  {
    forall i, j :: NotAfter(s, flows, i, j)
  }

  /** Map and list hold the same flows once each, the list is in the order of last use, and no use is later than now. */
  ghost predicate ListOk(flows: map<FlowId, Flow>, lru: seq<FlowId>, now: int) {
    && Distinct(lru) && (forall id :: id in lru <==> id in flows) && Ordered(lru, flows)
    && (forall id | id in flows :: flows[id].lastSeen <= now && id != "")
  }

  ghost predicate TableOk(t: Table, now: int) {
    ListOk(t.flows, t.lru, now)
  }

  predicate FlowOk(o: Options, f: Flow) {
    && 1 <= f.packets && (f.final || f.packets < o.maxPackets) && (f.packets <= o.maxPackets || f.packets == 1)
    && f.verdict.final == f.final && f.verdict.packets == f.packets && 0 <= f.up < TWO_32 && 0 <= f.down < TWO_32
  }

  ghost predicate FlowsOk(o: Options, t: Table) {
    forall id | id in t.flows :: FlowOk(o, t.flows[id])
  }

  // ---- removing from the list ----

  lemma TailDistinct(s: seq<FlowId>)
    requires Distinct(s) && s != []
    ensures Distinct(s[1..]) && s[0] !in s[1..]
  {
    forall i, j ensures Differ(s[1..], i, j) {
      assert Differ(s, i + 1, j + 1);
    }
    forall j | 0 <= j < |s[1..]| ensures s[1..][j] != s[0] {
      assert Differ(s, 0, j + 1);
    }
  }

  lemma ConsDistinct(id: FlowId, s: seq<FlowId>)
    requires Distinct(s) && id !in s
    ensures Distinct([id] + s)
  {
    forall i, j ensures Differ([id] + s, i, j) {
      assert Differ(s, i - 1, j - 1);
      if 0 == i < j < |[id] + s| {
        assert s[j - 1] in s;
      }
    }
  }

  lemma {:induction false} WithoutMeans(s: seq<FlowId>, id: FlowId)
    ensures forall x :: x in Without(s, id) <==> x in s && x != id
    ensures Distinct(s) ==> Distinct(Without(s, id))
    ensures id !in s ==> Without(s, id) == s
  {
    if s != [] {
      WithoutMeans(s[1..], id);
      assert s == [s[0]] + s[1..];
      var rest := Without(s[1..], id);
      if Distinct(s) {
        TailDistinct(s);
        if s[0] != id {
          ConsDistinct(s[0], rest);
        }
      }
    }
  }

  lemma TailOrdered(s: seq<FlowId>, flows: map<FlowId, Flow>)
    requires Listed(s, flows) && Ordered(s, flows) && s != []
    ensures Listed(s[1..], flows) && Ordered(s[1..], flows)
    ensures forall id | id in s[1..] :: flows[s[0]].lastSeen <= flows[id].lastSeen
  {
    assert s == [s[0]] + s[1..];
    forall i, j ensures NotAfter(s[1..], flows, i, j) {
      assert NotAfter(s, flows, i + 1, j + 1);
    }
    forall id | id in s[1..] ensures flows[s[0]].lastSeen <= flows[id].lastSeen {
      var k :| 0 <= k < |s[1..]| && s[1..][k] == id;
      assert NotAfter(s, flows, 0, k + 1);
    }
  }

  lemma ConsOrdered(id: FlowId, s: seq<FlowId>, flows: map<FlowId, Flow>)
    requires id in flows && Listed(s, flows) && Ordered(s, flows)
    requires forall x | x in s :: flows[id].lastSeen <= flows[x].lastSeen
    ensures Listed([id] + s, flows) && Ordered([id] + s, flows)
  {
    forall i, j ensures NotAfter([id] + s, flows, i, j) {
      assert NotAfter(s, flows, i - 1, j - 1);
      if 0 == i < j < |[id] + s| {
        assert s[j - 1] in s;
      }
    }
  }

  lemma {:induction false} WithoutOrdered(s: seq<FlowId>, id: FlowId, flows: map<FlowId, Flow>)
    requires Listed(s, flows) && Ordered(s, flows)
    ensures Listed(Without(s, id), flows) && Ordered(Without(s, id), flows)
  {
    if s != [] {
      TailOrdered(s, flows);
      WithoutOrdered(s[1..], id, flows);
      WithoutMeans(s[1..], id);
      if s[0] != id {
        ConsOrdered(s[0], Without(s[1..], id), flows);
      }
    }
  }

  lemma StillOrdered(s: seq<FlowId>, was: map<FlowId, Flow>, flows: map<FlowId, Flow>)
    requires Listed(s, was) && Ordered(s, was) && forall id | id in s :: id in flows && flows[id] == was[id]
    ensures Listed(s, flows) && Ordered(s, flows)
  {
    forall i, j ensures NotAfter(s, flows, i, j) {
      assert NotAfter(s, was, i, j);
      if 0 <= i < j < |s| {
        assert s[i] in s && s[j] in s;
      }
    }
  }

  lemma RemovedOk(t: Table, id: FlowId, now: int)
    requires TableOk(t, now)
    ensures TableOk(Removed(t, id), now) && Removed(t, id).flows == t.flows - {id}
  {
    WithoutMeans(t.lru, id);
    if id in t.flows {
      WithoutOrdered(t.lru, id, t.flows);
      StillOrdered(Without(t.lru, id), t.flows, t.flows - {id});
    } else {
      assert t.flows - {id} == t.flows;
    }
  }

  // ---- expiring from the front is a full scan ----

  function Live(o: Options, flows: map<FlowId, Flow>, now: int): map<FlowId, Flow> {
    map id | id in flows && !Idle(o, flows[id], now) :: flows[id]
  }

  /** In an ordered list nothing is idle when the front is not. */
  lemma FrontIsOldest(o: Options, t: Table, now: int, clock: int)
    requires TableOk(t, clock) && (t.lru == [] || !Idle(o, t.flows[t.lru[0]], now))
    ensures Live(o, t.flows, now) == t.flows
  {
    forall id | id in t.flows ensures !Idle(o, t.flows[id], now) {
      var k :| 0 <= k < |t.lru| && t.lru[k] == id;
      assert NotAfter(t.lru, t.flows, 0, k);
    }
  }

  lemma IdleIsDropped(o: Options, flows: map<FlowId, Flow>, id: FlowId, now: int)
    requires id in flows && Idle(o, flows[id], now)
    ensures Live(o, flows - {id}, now) == Live(o, flows, now)
  {
  }

  /** One removal at the front, and the rest of the loop. */
  lemma ExpiresFront(o: Options, t: Table, now: int, clock: int, next: Table)
    requires TableOk(t, clock) && t.lru != [] && Idle(o, t.flows[t.lru[0]], now)
    requires next == Removed(t, t.lru[0]).(expired := t.expired + 1)
    ensures TableOk(next, clock) && |next.flows| == |t.flows| - 1 && Live(o, next.flows, now) == Live(o, t.flows, now)
    ensures Expired(o, t, now) == Expired(o, next, now)
  {
    RemovedOk(t, t.lru[0], clock);
    IdleIsDropped(o, t.flows, t.lru[0], now);
    assert next.flows.Keys == t.flows.Keys - {t.lru[0]};
  }

  /** Looking at the front only removes exactly the flows that a scan of the whole table would find idle. */
  lemma {:induction false} ExpiryIsFullScan(o: Options, t: Table, now: int, clock: int)
    requires TableOk(t, clock)
    ensures TableOk(Expired(o, t, now), clock)
    ensures Expired(o, t, now).flows == Live(o, t.flows, now)
    ensures Expired(o, t, now).expired + |Expired(o, t, now).flows| == t.expired + |t.flows|
    ensures Expired(o, t, now) == t.(flows := Expired(o, t, now).flows, lru := Expired(o, t, now).lru, expired := Expired(o, t, now).expired)
    decreases |t.flows|
  {
    if t.lru == [] || !Idle(o, t.flows[t.lru[0]], now) {
      FrontIsOldest(o, t, now, clock);
    } else {
      var next := Removed(t, t.lru[0]).(expired := t.expired + 1);
      ExpiresFront(o, t, now, clock, next);
      ExpiryIsFullScan(o, next, now, clock);
    }
  }

  lemma KeysOfList(t: Table, now: int)
    requires TableOk(t, now)
    ensures |t.lru| == |t.flows|
  {
    ListSize(t.lru, t.flows.Keys);
  }

  lemma {:induction false} ListSize(s: seq<FlowId>, ids: set<FlowId>)
    requires Distinct(s) && forall id :: id in s <==> id in ids
    ensures |s| == |ids|
  {
    if s == [] {
      assert ids == {};
    } else {
      assert s == [s[0]] + s[1..];
      TailDistinct(s);
      ListSize(s[1..], ids - {s[0]});
    }
  }

  lemma RoomOk(o: Options, t: Table, now: int)
    requires TableOk(t, now)
    ensures TableOk(WithRoom(o, t), now)
    ensures |WithRoom(o, t).flows| < |t.flows| || |t.flows| < o.maxFlows || t.flows == map[]
    ensures WithRoom(o, t) == t || |WithRoom(o, t).flows| == |t.flows| - 1
    ensures forall id | id in WithRoom(o, t).flows :: id in t.flows && WithRoom(o, t).flows[id] == t.flows[id]
  {
    KeysOfList(t, now);
    if !(|t.flows| < o.maxFlows || t.lru == []) {
      RemovedOk(t, t.lru[0], now);
      assert (t.flows - {t.lru[0]}).Keys == t.flows.Keys - {t.lru[0]};
    }
  }

  // ---- every operation ----

  lemma AppendOk(t: Table, id: FlowId, f: Flow, now: int)
    requires TableOk(t, now) && id != "" && f.lastSeen == now
    ensures TableOk(t.(flows := t.flows[id := f], lru := Without(t.lru, id) + [id]), now)
  {
    WithoutMeans(t.lru, id);
    WithoutOrdered(t.lru, id, t.flows);
    SnocOk(Without(t.lru, id), id, t.flows, t.flows[id := f]);
  }

  lemma SnocOk(s: seq<FlowId>, id: FlowId, was: map<FlowId, Flow>, flows: map<FlowId, Flow>)
    requires Distinct(s) && id !in s && Listed(s, was) && Ordered(s, was) && id in flows
    requires forall x | x in s :: x in flows && flows[x] == was[x] && was[x].lastSeen <= flows[id].lastSeen
    ensures Distinct(s + [id]) && Listed(s + [id], flows) && Ordered(s + [id], flows)
  {
    forall i, j ensures Differ(s + [id], i, j) && NotAfter(s + [id], flows, i, j) {
      assert Differ(s, i, j) && NotAfter(s, was, i, j);
      if 0 <= i < j < |s + [id]| {
        assert s[i] in s;
        assert j < |s| ==> s[j] in s;
      }
    }
  }

  lemma ClassifiedKnownOk(o: Options, t: Table, p: Packet, now: int)
    requires TableOk(t, now) && FlowsOk(o, t) && p.id in t.flows
    ensures TableOk(ClassifiedKnown(o, t, p, now).0, now) && FlowsOk(o, ClassifiedKnown(o, t, p, now).0)
    ensures ClassifiedKnown(o, t, p, now).0.flows.Keys == t.flows.Keys
  {
    var f := t.flows[p.id];
    AppendOk(t, p.id, if f.final then f.(lastSeen := now) else Fed(o, f, p, now), now);
    assert t.flows.Keys + {p.id} == t.flows.Keys;
  }

  lemma InsertedOk(o: Options, room: Table, id: FlowId, f: Flow, now: int)
    requires TableOk(room, now) && FlowsOk(o, room) && id !in room.flows && id != "" && f.lastSeen == now && FlowOk(o, f)
    ensures var v := room.(flows := room.flows[id := f], lru := room.lru + [id]);
      TableOk(v, now) && FlowsOk(o, v) && |v.flows| == |room.flows| + 1
  {
    WithoutMeans(room.lru, id);
    AppendOk(room, id, f, now);
    assert room.flows[id := f].Keys == room.flows.Keys + {id};
  }

  lemma ClassifiedNewOk(o: Options, t: Table, p: Packet, now: int, memory: bool)
    requires TableOk(t, now) && FlowsOk(o, t) && p.id !in t.flows && o.maxFlows >= 1 && |t.flows| <= o.maxFlows
    ensures var v := ClassifiedNew(o, t, p, now, memory).0;
      TableOk(v, now) && FlowsOk(o, v) && |v.flows| <= o.maxFlows
  {
    if p.id != "" {
      RoomOk(o, t, now);
      if memory {
        InsertedOk(o, WithRoom(o, t), p.id, Fed(o, NEW_FLOW, p, now), now);
      }
    }
  }

  lemma LaterOk(t: Table, before: int, now: int)
    requires TableOk(t, before) && before <= now
    ensures TableOk(t, now)
  {
  }

  lemma ClassifiedOk(o: Options, t: Table, p: Packet, now: int, memory: bool)
    requires TableOk(t, now) && FlowsOk(o, t) && o.maxFlows >= 1 && |t.flows| <= o.maxFlows
    ensures var v := Classified(o, t, p, now, memory).0;
      TableOk(v, now) && FlowsOk(o, v) && |v.flows| <= o.maxFlows
  {
    var live := Expired(o, t, now);
    ExpiryIsFullScan(o, t, now, now);
    assert |live.flows| <= |t.flows| by {
      SubsetSize(live.flows.Keys, t.flows.Keys);
    }
    if p.id != "" && p.id in live.flows {
      ClassifiedKnownOk(o, live, p, now);
    } else {
      ClassifiedNewOk(o, live, p, now, memory);
    }
  }

  // ---- what a call answers and what it leaves ----

  /** Used less than the time to live ago. */
  predicate Alive(o: Options, t: Table, id: FlowId, now: int) {
    id in t.flows && now - t.flows[id].lastSeen < o.ttl
  }

  ghost function AliveIn(o: Options, t: Table, now: int): set<FlowId> {
    set id | id in t.flows && Alive(o, t, id, now)
  }

  lemma ExpiredMeans(o: Options, t: Table, now: int, clock: int)
    requires TableOk(t, clock)
    ensures var v := Expired(o, t, now);
      && v.flows.Keys == AliveIn(o, t, now) && (forall id | id in v.flows :: v.flows[id] == t.flows[id])
      && v.expired == t.expired + |t.flows| - |AliveIn(o, t, now)| && v.evicted == t.evicted && v.processed == t.processed
  {
    ExpiryIsFullScan(o, t, now, clock);
    assert |Expired(o, t, now).flows| == |Expired(o, t, now).flows.Keys|;
  }

  /** The number of packets a flow has had. */
  function PacketsOf(o: Options, t: Table, id: FlowId, now: int): nat {
    if Alive(o, t, id, now) then t.flows[id].packets else 0
  }

  /**
   * The verdict of a call: a final one stands; any other counts one more packet, is final once the detection is
   * complete or has seen as many packets as it may, and carries the name of the guess only in the second case.
   */
  lemma AnswerMeans(o: Options, t: Table, p: Packet, now: int, memory: bool)
    requires TableOk(t, now)
    ensures var (v, answer) := Classified(o, t, p, now, memory);
      var known, n := Alive(o, t, p.id, now), PacketsOf(o, t, p.id, now) + 1;
      && (answer.Some? <==> known || memory)
      && (known && t.flows[p.id].final ==> answer.value == t.flows[p.id].verdict && v.processed == t.processed)
      && (answer.Some? && !(known && t.flows[p.id].final) ==>
            answer.value == Verdict(if !p.raw.complete && n >= o.maxPackets then p.giveup.name else p.raw.name, n,
                                    p.raw.complete || n >= o.maxPackets)
            && v.processed == t.processed + 1)
      && (answer.Some? && p.id != "" ==>
            p.id in v.flows && v.flows[p.id].verdict == answer.value && v.flows[p.id].lastSeen == now)
  {
    ExpiredMeans(o, t, now, now);
  }

  lemma EvictedIsOldest(o: Options, t: Table, now: int)
    requires TableOk(t, now)
    ensures var v := WithRoom(o, t);
      if |t.flows| < o.maxFlows || t.flows == map[] then v == t
      else t.lru != [] && v.flows == t.flows - {t.lru[0]} && v.evicted == t.evicted + 1 && v.expired == t.expired
           && t.lru[0] in t.flows && forall id | id in t.flows :: t.flows[t.lru[0]].lastSeen <= t.flows[id].lastSeen
  {
    KeysOfList(t, now);
    if t.lru != [] {
      assert t.lru[0] in t.lru;
      RemovedOk(t, t.lru[0], now);
      forall id | id in t.flows ensures t.flows[t.lru[0]].lastSeen <= t.flows[id].lastSeen {
        var k :| 0 <= k < |t.lru| && t.lru[k] == id;
        assert NotAfter(t.lru, t.flows, 0, k);
      }
    }
  }

  /** A call brings in a flow when the table already has as many live ones as it may. */
  ghost predicate Overflows(o: Options, t: Table, p: Packet, now: int) {
    p.id != "" && !Alive(o, t, p.id, now) && |AliveIn(o, t, now)| >= o.maxFlows
  }

  /** All flows but the call's own: exactly those that are alive, as they were. */
  ghost predicate OthersStay(o: Options, t: Table, v: Table, own: FlowId, now: int) {
    forall id | id != own :: (id in v.flows <==> Alive(o, t, id, now)) && (id in v.flows ==> v.flows[id] == t.flows[id])
  }

  /** All but one of them, than which no other has been idle for longer. */
  ghost predicate OldestGoes(o: Options, t: Table, v: Table, own: FlowId, now: int, oldest: FlowId) {
    && Alive(o, t, oldest, now) && (forall id | Alive(o, t, id, now) :: t.flows[oldest].lastSeen <= t.flows[id].lastSeen)
    && forall id | id != own ::
         (id in v.flows <==> Alive(o, t, id, now) && id != oldest) && (id in v.flows ==> v.flows[id] == t.flows[id])
  }

  lemma KnownOthers(o: Options, t: Table, p: Packet, now: int)
    requires TableOk(t, now) && p.id != "" && p.id in Expired(o, t, now).flows
    ensures var v := ClassifiedKnown(o, Expired(o, t, now), p, now).0;
            OthersStay(o, t, v, p.id, now) && v.evicted == t.evicted && v.expired == t.expired + |t.flows| - |AliveIn(o, t, now)|
  {
    ExpiredMeans(o, t, now, now);
  }

  lemma NewOthers(o: Options, t: Table, p: Packet, now: int, memory: bool) returns (oldest: FlowId)
    requires TableOk(t, now) && o.maxFlows >= 1 && (p.id == "" || !Alive(o, t, p.id, now))
    ensures var v := ClassifiedNew(o, Expired(o, t, now), p, now, memory).0;
      && v.expired == t.expired + |t.flows| - |AliveIn(o, t, now)|
      && if Overflows(o, t, p, now) then v.evicted == t.evicted + 1 && OldestGoes(o, t, v, p.id, now, oldest)
         else v.evicted == t.evicted && OthersStay(o, t, v, p.id, now)
  {
    var live := Expired(o, t, now);
    ExpiredMeans(o, t, now, now);
    ExpiryIsFullScan(o, t, now, now);
    EvictedIsOldest(o, live, now);
    assert |live.flows| == |live.flows.Keys|;
    oldest := if live.lru != [] then live.lru[0] else "";
  }

  /**
   * What a call does to all other flows: the idle ones are gone, and of the live ones at most one, only to make room,
   * and then one that no other live flow has been idle for longer than. The rest stay exactly as they are.
   */
  lemma OthersMean(o: Options, t: Table, p: Packet, now: int, memory: bool) returns (oldest: FlowId)
    requires TableOk(t, now) && o.maxFlows >= 1
    ensures var v := Classified(o, t, p, now, memory).0;
      && v.expired == t.expired + |t.flows| - |AliveIn(o, t, now)|
      && if Overflows(o, t, p, now) then v.evicted == t.evicted + 1 && OldestGoes(o, t, v, p.id, now, oldest)
         else v.evicted == t.evicted && OthersStay(o, t, v, p.id, now)
  {
    ExpiredMeans(o, t, now, now);
    oldest := "";
    if p.id != "" && Alive(o, t, p.id, now) {
      KnownOthers(o, t, p, now);
    } else {
      oldest := NewOthers(o, t, p, now, memory);
    }
  }

  // ---- runs ----

  /** A tick carries the time the ticker fired, which may be older than the last packet. */
  datatype Step = Classify(p: Packet, now: int, memory: bool) | CloseFlow(id: FlowId) | Tick(fired: int)

  function Next(o: Options, t: Table, s: Step): Table {
    match s
    case Classify(p, now, memory) => Classified(o, t, p, now, memory).0
    case CloseFlow(id) => Removed(t, id)
    case Tick(fired) => Expired(o, t, fired)
  }

  function ClockAfter(clock: int, s: Step): int {
    if s.Classify? then s.now else clock
  }

  /** The clock that stamps packets never goes back. */
  predicate Monotone(clock: int, steps: seq<Step>)
    decreases |steps|
  {
    steps == [] || ((steps[0].Classify? ==> clock <= steps[0].now) && Monotone(ClockAfter(clock, steps[0]), steps[1..]))
  }

  function Run(o: Options, t: Table, steps: seq<Step>): Table
    decreases |steps|
  {
    if steps == [] then t else Run(o, Next(o, t, steps[0]), steps[1..])
  }

  ghost predicate EngineOk(o: Options, t: Table, clock: int) {
    TableOk(t, clock) && FlowsOk(o, t) && |t.flows| <= o.maxFlows
  }

  lemma StepKeeps(o: Options, t: Table, s: Step, clock: int)
    requires EngineOk(o, t, clock) && o.maxFlows >= 1 && (s.Classify? ==> clock <= s.now)
    ensures EngineOk(o, Next(o, t, s), ClockAfter(clock, s))
  {
    match s
    case Classify(p, now, memory) =>
      LaterOk(t, clock, now);
      ClassifiedOk(o, t, p, now, memory);
    case CloseFlow(id) =>
      RemovedOk(t, id, clock);
      SubsetSize((t.flows - {id}).Keys, t.flows.Keys);
    case Tick(fired) =>
      ExpiryIsFullScan(o, t, fired, clock);
      SubsetSize(Live(o, t.flows, fired).Keys, t.flows.Keys);
  }

  const EMPTY_TABLE: Table := Table(map[], [], 0, 0, 0)

  function LastClock(clock: int, steps: seq<Step>): int
    decreases |steps|
  {
    if steps == [] then clock else LastClock(ClockAfter(clock, steps[0]), steps[1..])
  }

  /** In every run the map and list agree, are in order of use and bounded, and every flow is final in time. */
  lemma {:induction false} RunsKeep(o: Options, t: Table, steps: seq<Step>, clock: int)
    requires EngineOk(o, t, clock) && o.maxFlows >= 1 && Monotone(clock, steps)
    ensures EngineOk(o, Run(o, t, steps), LastClock(clock, steps))
    decreases |steps|
  {
    if steps != [] {
      StepKeeps(o, t, steps[0], clock);
      RunsKeep(o, Next(o, t, steps[0]), steps[1..], ClockAfter(clock, steps[0]));
    }
  }

  /** So from a new engine on. */
  lemma RunsFromStart(o: Options, steps: seq<Step>, clock: int)
    requires o.maxFlows >= 1 && Monotone(clock, steps)
    ensures EngineOk(o, Run(o, EMPTY_TABLE, steps), LastClock(clock, steps))
  {
    RunsKeep(o, EMPTY_TABLE, steps, clock);
  }

  /** The flow is neither expired nor evicted nor closed by this step; a flow replaced under its id does not stay. */
  predicate Stays(o: Options, t: Table, s: Step, id: FlowId) {
    id in t.flows && id in Next(o, t, s).flows && (s.Classify? ==> !Idle(o, t.flows[id], s.now))
  }

  predicate StaysAll(o: Options, t: Table, steps: seq<Step>, id: FlowId)
    decreases |steps|
  {
    steps == [] || (Stays(o, t, steps[0], id) && StaysAll(o, Next(o, t, steps[0]), steps[1..], id))
  }

  predicate Feeds(t: Table, s: Step, id: FlowId)
    requires id in t.flows
  {
    s.Classify? && s.p.id == id && !t.flows[id].final
  }

  /** The flow after a packet of some flow: its own packet is fed or only touches it, any other leaves it alone. */
  function AfterPacket(o: Options, f: Flow, own: bool, p: Packet, now: int): Flow {
    if !own then f else if f.final then f.(lastSeen := now) else Fed(o, f, p, now)
  }

  lemma StayingPacket(o: Options, t: Table, p: Packet, now: int, memory: bool, id: FlowId)
    requires TableOk(t, now) && id in t.flows
    requires id in Classified(o, t, p, now, memory).0.flows && !Idle(o, t.flows[id], now)
    ensures Classified(o, t, p, now, memory).0.flows[id] == AfterPacket(o, t.flows[id], p.id == id, p, now)
  {
    var live := Expired(o, t, now);
    ExpiryIsFullScan(o, t, now, now);
    assert id in live.flows && live.flows[id] == t.flows[id] && id != "";
    if p.id != id && !(p.id != "" && p.id in live.flows) {
      RoomOk(o, live, now);
    }
  }

  /** What a step does to a flow that stays: its own packet is fed or only touches it, anything else leaves it alone. */
  lemma StayingFlow(o: Options, t: Table, s: Step, id: FlowId, clock: int)
    requires EngineOk(o, t, clock) && Stays(o, t, s, id) && (s.Classify? ==> clock <= s.now)
    ensures Next(o, t, s).flows[id] ==
              if Feeds(t, s, id) then Fed(o, t.flows[id], s.p, s.now)
              else t.flows[id].(lastSeen := if s.Classify? && s.p.id == id then s.now else t.flows[id].lastSeen)
  {
    match s
    case Classify(p, now, memory) =>
      LaterOk(t, clock, now);
      StayingPacket(o, t, p, now, memory, id);
    case CloseFlow(_) =>
      RemovedOk(t, s.id, clock);
    case Tick(fired) =>
      ExpiryIsFullScan(o, t, fired, clock);
  }

  /** A final verdict never changes while the flow stays in the table. */
  lemma {:induction false} FinalVerdictStands(o: Options, t: Table, steps: seq<Step>, id: FlowId, clock: int)
    requires EngineOk(o, t, clock) && o.maxFlows >= 1 && Monotone(clock, steps)
    requires id in t.flows && t.flows[id].final && StaysAll(o, t, steps, id)
    ensures var v := Run(o, t, steps);
      id in v.flows && v.flows[id].final && v.flows[id].verdict == t.flows[id].verdict && v.flows[id].packets == t.flows[id].packets
    decreases |steps|
  {
    if steps != [] {
      StayingFlow(o, t, steps[0], id, clock);
      StepKeeps(o, t, steps[0], clock);
      FinalVerdictStands(o, Next(o, t, steps[0]), steps[1..], id, ClockAfter(clock, steps[0]));
    }
  }

  function SequenceOf(f: Flow, d: Direction): Uint32 {
    if d == ClientToServer then f.up else f.down
  }

  function StepBytes(t: Table, s: Step, id: FlowId, d: Direction): nat {
    if id in t.flows && Feeds(t, s, id) && s.p.direction == d then s.p.size else 0
  }

  /** A sequence number after so many more bytes, modulo 2^32. */
  predicate Advances(from: int, bytes: nat, to: int) {
    to == (from + bytes) % TWO_32
  }

  lemma StepSequence(o: Options, t: Table, s: Step, id: FlowId, d: Direction, clock: int)
    requires EngineOk(o, t, clock) && Stays(o, t, s, id) && (s.Classify? ==> clock <= s.now)
    ensures id in Next(o, t, s).flows
    ensures Advances(SequenceOf(t.flows[id], d), StepBytes(t, s, id, d), SequenceOf(Next(o, t, s).flows[id], d))
  {
    StayingFlow(o, t, s, id, clock);
    assert FlowOk(o, t.flows[id]);
  }

  lemma StepBoth(o: Options, t: Table, s: Step, id: FlowId, d: Direction, clock: int, next: Table)
    requires EngineOk(o, t, clock) && o.maxFlows >= 1 && Stays(o, t, s, id) && (s.Classify? ==> clock <= s.now)
    requires next == Next(o, t, s)
    ensures id in next.flows && EngineOk(o, next, ClockAfter(clock, s))
    ensures Advances(SequenceOf(t.flows[id], d), StepBytes(t, s, id, d), SequenceOf(next.flows[id], d))
  {
    StepSequence(o, t, s, id, d, clock);
    StepKeeps(o, t, s, clock);
  }

  /** The sizes of the flow's packets that went through detection in one direction, 0 for every other step. */
  function Sizes(o: Options, t: Table, steps: seq<Step>, id: FlowId, d: Direction): seq<nat>
    decreases |steps|
  {
    if steps == [] then [] else [StepBytes(t, steps[0], id, d)] + Sizes(o, Next(o, t, steps[0]), steps[1..], id, d)
  }

  function Sum(sizes: seq<nat>): nat {
    if sizes == [] then 0 else sizes[0] + Sum(sizes[1..])
  }

  lemma SumFirst(first: nat, rest: seq<nat>)
    ensures Sum([first] + rest) == first + Sum(rest)
  {
    assert ([first] + rest)[1..] == rest;
  }

  lemma AdvancesAdd(from: int, first: nat, middle: int, rest: nat, to: int)
    requires Advances(from, first, middle) && Advances(middle, rest, to)
    ensures Advances(from, first + rest, to)
  {
  }

  /** The sequence number of a direction is the number of its earlier bytes, modulo 2^32. */
  lemma {:induction false} SequenceCountsBytes(o: Options, t: Table, steps: seq<Step>, id: FlowId, d: Direction, clock: int)
    requires EngineOk(o, t, clock) && o.maxFlows >= 1 && Monotone(clock, steps) && id in t.flows && StaysAll(o, t, steps, id)
    ensures id in Run(o, t, steps).flows
    ensures Advances(SequenceOf(t.flows[id], d), Sum(Sizes(o, t, steps, id, d)), SequenceOf(Run(o, t, steps).flows[id], d))
    decreases |steps|
  {
    if steps == [] {
      assert FlowOk(o, t.flows[id]);
    } else {
      var next := Next(o, t, steps[0]);
      StepBoth(o, t, steps[0], id, d, clock, next);
      SequenceCountsBytes(o, next, steps[1..], id, d, ClockAfter(clock, steps[0]));
      var first, rest := StepBytes(t, steps[0], id, d), Sizes(o, next, steps[1..], id, d);
      SumFirst(first, rest);
      AdvancesAdd(SequenceOf(t.flows[id], d), first, SequenceOf(next.flows[id], d), Sum(rest), SequenceOf(Run(o, t, steps).flows[id], d));
    }
  }

  /** The packet that brings a flow into the table. */
  predicate Opens(o: Options, t: Table, s: Step) {
    s.Classify? && s.memory && s.p.id != "" && s.p.id !in Expired(o, t, s.now).flows
  }

  function FirstBytes(p: Packet, d: Direction): nat {
    if p.direction == d then p.size else 0
  }

  lemma OpeningStep(o: Options, t: Table, s: Step, d: Direction, clock: int, next: Table)
    requires EngineOk(o, t, clock) && o.maxFlows >= 1 && Opens(o, t, s) && clock <= s.now && next == Next(o, t, s)
    ensures EngineOk(o, next, s.now) && s.p.id in next.flows
    ensures Advances(0, FirstBytes(s.p, d), SequenceOf(next.flows[s.p.id], d))
  {
    assert next.flows[s.p.id] == Fed(o, NEW_FLOW, s.p, s.now);
    StepKeeps(o, t, s, clock);
  }

  /** From the packet that opened a flow on, its sequence number is the number of all its bytes in that direction. */
  lemma SequenceFromFirst(o: Options, t: Table, s: Step, next: Table, steps: seq<Step>, d: Direction, clock: int)
    requires EngineOk(o, t, clock) && o.maxFlows >= 1 && Opens(o, t, s) && clock <= s.now && Monotone(s.now, steps)
    requires next == Next(o, t, s) && StaysAll(o, next, steps, s.p.id)
    ensures s.p.id in Run(o, next, steps).flows
    ensures Advances(0, FirstBytes(s.p, d) + Sum(Sizes(o, next, steps, s.p.id, d)), SequenceOf(Run(o, next, steps).flows[s.p.id], d))
  {
    OpeningStep(o, t, s, d, clock, next);
    SequenceAfter(o, next, steps, s.p.id, d, s.now, FirstBytes(s.p, d));
  }

  lemma SequenceAfter(o: Options, t: Table, steps: seq<Step>, id: FlowId, d: Direction, clock: int, first: nat)
    requires EngineOk(o, t, clock) && o.maxFlows >= 1 && Monotone(clock, steps) && id in t.flows && StaysAll(o, t, steps, id)
    requires Advances(0, first, SequenceOf(t.flows[id], d))
    ensures id in Run(o, t, steps).flows
    ensures Advances(0, first + Sum(Sizes(o, t, steps, id, d)), SequenceOf(Run(o, t, steps).flows[id], d))
  {
    SequenceCountsBytes(o, t, steps, id, d, clock);
    AdvancesAdd(0, first, SequenceOf(t.flows[id], d), Sum(Sizes(o, t, steps, id, d)), SequenceOf(Run(o, t, steps).flows[id], d));
  }
}
