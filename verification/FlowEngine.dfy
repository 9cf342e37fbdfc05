/** The nDPI engine as the object of engine_ndpi_linux.go, proved to compute the flow table's functions. */
module FlowEngine {
  import opened Common
  import opened ClientHello
  import opened FlowTable
  import opened PacketBytes

  datatype ClassifyError = EmptyPayload | BadNetwork | EngineClosed | AllocationFailed

  predicate KnownNetwork(r: Request) {
    r.network == "tcp" || r.network == "udp"
  }

  /** What the flow table sees of a request. */
  function PacketOf(id: FlowId, r: Request, raw: Raw, giveup: Raw): Packet {
    Packet(id, r.direction, |r.payload|, raw, giveup)
  }

  /** The flow a request is classified under; a new one starts counting at 0. */
  function FlowFor(t: Table, id: FlowId): Flow {
    if id != "" && id in t.flows then t.flows[id] else NEW_FLOW
  }

  class FlowEngine {
    const options: Options
    var flows: map<FlowId, Flow>
    var lru: seq<FlowId>
    var processed: nat
    var evicted: nat
    var expired: nat
    var closed: bool

    function View(): Table
      reads this
    {
      Table(flows, lru, processed, evicted, expired)
    }

    constructor (options: Options)
      ensures this.options == options && View() == EMPTY_TABLE && !closed
    {
      this.options := options;
      flows, lru, processed, evicted, expired, closed := map[], [], 0, 0, 0, false;
    }

    /** list.Remove: the element is unlinked wherever it is. */
    method Unlink(id: FlowId)
      modifies this`lru
      ensures lru == Without(old(lru), id)
    {
      var kept: seq<FlowId> := [];
      var k := |lru|;
      while k > 0
        invariant 0 <= k <= |lru| && lru == old(lru) && kept == Without(lru[k..], id)
      {
        k := k - 1;
        assert lru[k..] == [lru[k]] + lru[k + 1..];
        if lru[k] != id {
          kept := [lru[k]] + kept;
        }
      }
      assert lru[0..] == lru;
      lru := kept;
    }

    method RemoveFlowLocked(id: FlowId)
      modifies this`flows, this`lru
      ensures View() == Removed(old(View()), id)
    {
      if id !in flows {
        return;
      }
      flows := flows - {id};
      Unlink(id);
    }

    method ExpireLocked(now: int)
      modifies this`flows, this`lru, this`expired
      ensures View() == Expired(options, old(View()), now)
    {
      while lru != [] && lru[0] in flows && now - flows[lru[0]].lastSeen >= options.ttl
        invariant Expired(options, View(), now) == Expired(options, old(View()), now)
        decreases |flows|
      {
        ghost var before := flows;
        ghost var t := View();
        var oldest := lru[0];
        RemoveFlowLocked(oldest);
        assert flows.Keys == before.Keys - {oldest};
        expired := expired + 1;
        assert View() == Removed(t, oldest).(expired := t.expired + 1);
      }
    }

    method EnsureCapacityLocked()
      modifies this`flows, this`lru, this`evicted
      ensures View() == WithRoom(options, old(View()))
    {
      if |flows| < options.maxFlows {
        return;
      }
      if lru != [] {
        RemoveFlowLocked(lru[0]);
        evicted := evicted + 1;
      }
    }

    /**
     * Detection of one packet, made up with the number of bytes the flow has seen in its direction; what libndpi
     * answers is an input.
     */
    method Process(f: Flow, id: FlowId, r: Request, raw: Raw, giveup: Raw, now: int) returns (fed: Flow, packet: array<Byte>)
      requires RequestOk(r) && KnownNetwork(r)
      modifies this`processed
      ensures fed == Fed(options, f, PacketOf(id, r, raw, giveup), now) && processed == old(processed) + 1
      ensures fresh(packet) && IsPacketOf(packet[..], r, SequenceOf(f, r.direction))
    {
      var up, down, sequence := f.up, f.down, f.up;
      if r.direction == ServerToClient {
        sequence := f.down;
      }
      var made, direction := SynthesizePacket(r, sequence);
      packet := made.value;
      if r.direction == ServerToClient {
        down := (down + |r.payload|) % TWO_32;
      } else {
        up := (up + |r.payload|) % TWO_32;
      }
      var packets := f.packets + 1;
      processed := processed + 1;
      var answer, final := raw, raw.complete;
      if !final && packets >= options.maxPackets {
        answer := giveup;
        final := true;
      }
      fed := Flow(now, packets, up, down, final, Verdict(answer.name, packets, final));
    }

    /** A packet of a flow that is not in the table: room is made, and the flow inserted unless it has no id. */
    method ClassifyNew(id: FlowId, req: Request, raw: Raw, giveup: Raw, now: int, memory: bool)
      returns (verdict: Option<Verdict>, packet: Option<array<Byte>>)
      requires RequestOk(req) && KnownNetwork(req) && (id == "" || id !in flows)
      modifies this`flows, this`lru, this`evicted, this`processed
      ensures (View(), verdict) == ClassifiedNew(options, old(View()), PacketOf(id, req, raw, giveup), now, memory)
      ensures packet.Some? <==> memory
      ensures packet.Some? ==> IsPacketOf(packet.value[..], req, 0)
    {
      if id != "" {
        EnsureCapacityLocked();
      }
      if !memory {
        return None, None;
      }
      var flow, made := Process(NEW_FLOW, id, req, raw, giveup, now);
      if id != "" {
        flows := flows[id := flow];
        lru := lru + [id];
      }
      return Some(flow.verdict), Some(made);
    }

    /** A packet of a flow in the table; a final one is only touched. */
    method ClassifyKnown(id: FlowId, req: Request, raw: Raw, giveup: Raw, now: int)
      returns (verdict: Verdict, packet: Option<array<Byte>>)
      requires RequestOk(req) && KnownNetwork(req) && id in flows
      modifies this`flows, this`lru, this`processed
      ensures (View(), Some(verdict)) == ClassifiedKnown(options, old(View()), PacketOf(id, req, raw, giveup), now)
      ensures packet.Some? <==> !old(flows)[id].final
      ensures packet.Some? ==> IsPacketOf(packet.value[..], req, SequenceOf(old(flows)[id], req.direction))
    {
      Unlink(id);
      lru := lru + [id];
      var flow := flows[id];
      if flow.final {
        flows := flows[id := flow.(lastSeen := now)];
        return flow.verdict, None;
      }
      var fed, made := Process(flow, id, req, raw, giveup, now);
      flows := flows[id := fed];
      return fed.verdict, Some(made);
    }

    /**
     * A closed engine, an empty payload or an unknown network changes nothing; otherwise the call is Classified. The
     * packet, if one is made, is the request's, with the sequence number of its flow.
     */
    method Classify(id: FlowId, req: Request, raw: Raw, giveup: Raw, now: int, memory: bool)
      returns (r: Result<Verdict, ClassifyError>, packet: Option<array<Byte>>)
      requires RequestOk(req)
      modifies this
      ensures closed == old(closed)
      ensures req.payload == [] || (req.network != "tcp" && req.network != "udp") || old(closed) ==>
                r == Err(if req.payload == [] then EmptyPayload
                         else if req.network != "tcp" && req.network != "udp" then BadNetwork else EngineClosed)
                && View() == old(View()) && packet == None
      ensures req.payload != [] && (req.network == "tcp" || req.network == "udp") && !old(closed) ==>
                var (t, v) := Classified(options, old(View()), PacketOf(id, req, raw, giveup), now, memory);
                View() == t && r == if v.Some? then Ok(v.value) else Err(AllocationFailed)
      ensures packet.Some? ==>
                IsPacketOf(packet.value[..], req, SequenceOf(FlowFor(Expired(options, old(View()), now), id), req.direction))
      ensures packet.Some? <==> r.Ok? && !FlowFor(Expired(options, old(View()), now), id).final
    {
      if req.payload == [] {
        return Err(EmptyPayload), None;
      }
      if !KnownNetwork(req) {
        return Err(BadNetwork), None;
      }
      if closed {
        return Err(EngineClosed), None;
      }
      ExpireLocked(now);
      if id != "" && id in flows {
        var verdict: Verdict;
        verdict, packet := ClassifyKnown(id, req, raw, giveup, now);
        return Ok(verdict), packet;
      }
      var answer: Option<Verdict>;
      answer, packet := ClassifyNew(id, req, raw, giveup, now, memory);
      r := if answer.Some? then Ok(answer.value) else Err(AllocationFailed);
    }

    method CloseFlow(id: FlowId)
      modifies this`flows, this`lru
      ensures View() == Removed(old(View()), id)
    {
      RemoveFlowLocked(id);
    }

    /** Closing frees every flow, with its place in the list, and refuses all later calls. */
    method Close()
      modifies this
      ensures closed && (old(closed) ==> View() == old(View()))
      ensures !old(closed) ==> flows == map[] && forall id :: id in lru <==> id in old(lru) && id !in old(flows)
    {
      if closed {
        return;
      }
      closed := true;
      var todo := flows.Keys;
      while todo != {}
        invariant todo == flows.Keys && todo <= old(flows).Keys && closed
        invariant forall id :: id in lru <==> id in old(lru) && (id in todo || id !in old(flows))
        decreases todo
      {
        var id :| id in todo;
        WithoutMeans(lru, id);
        RemoveFlowLocked(id);
        todo := todo - {id};
      }
    }
  }

  /**
   * End to end: the packet that a request of an open flow is made into carries, for TCP, the number of bytes the flow
   * has had in the request's direction, modulo 2^32, for as long as the flow has been in the table.
   */
  lemma PacketCountsEarlierBytes(o: Options, t: Table, s: Step, next: Table, steps: seq<Step>, clock: int, r: Request, p: Bytes)
    requires EngineOk(o, t, clock) && o.maxFlows >= 1 && Opens(o, t, s) && clock <= s.now && Monotone(s.now, steps)
    requires next == Next(o, t, s) && StaysAll(o, next, steps, s.p.id) && RequestOk(r)
    requires var v := Run(o, next, steps);
             s.p.id in v.flows && IsPacketOf(p, r, SequenceOf(v.flows[s.p.id], r.direction))
    ensures Decode(p).Some? && r.network == "tcp" ==>
              var earlier := FirstBytes(s.p, r.direction) + Sum(Sizes(o, next, steps, s.p.id, r.direction));
              Decode(p).value.sequence == earlier % TWO_32 && Decode(p).value.payload == r.payload
  {
    SequenceFromFirst(o, t, s, next, steps, r.direction, clock);
  }
}
