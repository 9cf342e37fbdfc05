/** The line probe manager: one worker per enabled probe, and results only from the worker in charge. */
module Probes {
  import opened Desired

  /** A worker is told from an earlier one for the same probe by its generation. */
  datatype Worker = Worker(probe: Probe, generation: nat)

  /** worker: the generation of the worker that recorded it. */
  datatype Outcome = Outcome(success: bool, worker: nat)

  datatype Manager = Manager(workers: map<nat, Worker>, results: map<nat, Outcome>, stopped: bool, generation: nat)

  predicate ProbeOk(p: Probe) {
    p.id != 0 && 5 <= p.interval <= 3600 && 100 <= p.timeout <= 30000 && p.kind in ["tcp", "udp_echo", "http"] && p.targetOk
  }

  predicate SameProbe(probes: seq<Probe>, i: int, j: int)
    requires 0 <= i < |probes| && 0 <= j < |probes|
  {
    probes[i].enabled && probes[j].enabled && probes[i].id == probes[j].id
  }

  /** Every enabled probe is well formed and no id is enabled twice. */
  predicate ProbesOk(probes: seq<Probe>) {
    && (forall i | 0 <= i < |probes| :: probes[i].enabled ==> ProbeOk(probes[i]))
    && forall i, j | 0 <= i < j < |probes| :: !SameProbe(probes, i, j)
  }

  /** The same in full: ids given and distinct, intervals of 5 seconds to an hour, timeouts of 0.1 to 30 seconds. */
  predicate WellFormed(probes: seq<Probe>) {
    && (forall i | 0 <= i < |probes| && probes[i].enabled ::
          && probes[i].id != 0 && 5 <= probes[i].interval <= 3600 && 100 <= probes[i].timeout <= 30000
          && (probes[i].kind == "tcp" || probes[i].kind == "udp_echo" || probes[i].kind == "http") && probes[i].targetOk)
    && forall i, j | 0 <= i < j < |probes| && probes[i].enabled && probes[j].enabled :: probes[i].id != probes[j].id
  }

  lemma ProbesOkMeans(probes: seq<Probe>)
    ensures ProbesOk(probes) <==> WellFormed(probes)
  {
    if ProbesOk(probes) {
      forall i, j | 0 <= i < j < |probes| && probes[i].enabled && probes[j].enabled ensures probes[i].id != probes[j].id {
        assert !SameProbe(probes, i, j);
      }
    }
  }

  function Enabled(probes: seq<Probe>, n: nat): map<nat, Probe>
    requires n <= |probes|
  {
    if n == 0 then map[]
    else if probes[n - 1].enabled then Enabled(probes, n - 1)[probes[n - 1].id := probes[n - 1]]
    else Enabled(probes, n - 1)
  }

  predicate Unchanged(m: Manager, want: map<nat, Probe>, id: nat) {
    id in m.workers && id in want && m.workers[id].probe == want[id]
  }

  /** Exactly the wanted probes have workers; unchanged ones keep theirs, the others get new ones, and lose their result. */
  ghost predicate ManagerAppliedTo(m: Manager, v: Manager, want: map<nat, Probe>) {
    && v.workers.Keys == want.Keys
    && (forall id | id in want :: v.workers[id].probe == want[id])
    && (forall id | id in want ::
          if Unchanged(m, want, id) then v.workers[id] == m.workers[id] else m.generation < v.workers[id].generation <= v.generation)
    && (forall id, other | id in want && other in want && id != other && !Unchanged(m, want, id) && !Unchanged(m, want, other) ::
          v.workers[id].generation != v.workers[other].generation)
    && (forall id :: id in v.results <==> id in m.results && (id !in m.workers || Unchanged(m, want, id)))
    && (forall id | id in v.results :: v.results[id] == m.results[id])
    && v.stopped == m.stopped && v.generation >= m.generation
  }

  /** While running, every result was recorded by the worker now in charge of its probe. */
  ghost predicate ManagerOk(m: Manager) {
    && (forall id | id in m.workers :: m.workers[id].generation <= m.generation && m.workers[id].probe.id == id)
    && (!m.stopped ==> forall id | id in m.results :: id in m.workers && m.results[id].worker == m.workers[id].generation)
  }

  /** What a worker does when its check ends: nothing if it has been replaced or the manager stopped. */
  function Recorded(m: Manager, w: Worker, success: bool): Manager {
    if m.stopped || !(w.probe.id in m.workers && m.workers[w.probe.id] == w) then m
    else m.(results := m.results[w.probe.id := Outcome(success, w.generation)])
  }

  lemma AppliedOk(m: Manager, v: Manager, want: map<nat, Probe>)
    requires ManagerOk(m) && ManagerAppliedTo(m, v, want) && forall id | id in want :: want[id].id == id
    ensures ManagerOk(v)
  {
  }

  lemma RecordedOk(m: Manager, w: Worker, success: bool)
    requires ManagerOk(m)
    ensures ManagerOk(Recorded(m, w, success))
    ensures var v, id := Recorded(m, w, success), w.probe.id;
            if !m.stopped && id in m.workers && m.workers[id] == w
            then v.results.Keys == m.results.Keys + {id} && v.results[id] == Outcome(success, w.generation)
                 && (forall other | other in m.results && other != id :: v.results[other] == m.results[other])
                 && v == m.(results := v.results)
            else v == m
  {
  }

  lemma {:induction false} EnabledKeyed(probes: seq<Probe>, n: nat, id: nat)
    requires n <= |probes|
    ensures id in Enabled(probes, n) <==> exists i :: 0 <= i < n && probes[i].enabled && probes[i].id == id
    ensures id in Enabled(probes, n) ==>
              var p := Enabled(probes, n)[id]; p.id == id && p.enabled && p in probes[..n]
  {
    if n > 0 {
      EnabledKeyed(probes, n - 1, id);
      assert probes[..n] == probes[..n - 1] + [probes[n - 1]];
    }
  }

  class ProbeManager {
    var workers: map<nat, Worker>
    var results: map<nat, Outcome>
    var stopped: bool
    var generation: nat

    function View(): Manager
      reads this
    {
      Manager(workers, results, stopped, generation)
    }

    constructor ()
      ensures View() == Manager(map[], map[], false, 0) && ManagerOk(View())
    {
      workers, results, stopped, generation := map[], map[], false, 0;
    }

    method Validate(probes: seq<Probe>) returns (ok: bool)
      ensures ok <==> ProbesOk(probes)
      ensures ok <==> WellFormed(probes)
    {
      ProbesOkMeans(probes);
      var seen: map<nat, nat> := map[];
      for i := 0 to |probes|
        invariant forall j | 0 <= j < i :: probes[j].enabled ==> ProbeOk(probes[j])
        invariant forall j, k | 0 <= j < k < i :: !SameProbe(probes, j, k)
        invariant forall j | 0 <= j < i && probes[j].enabled :: probes[j].id in seen
        invariant forall id | id in seen :: seen[id] < i && probes[seen[id]].enabled && probes[seen[id]].id == id
      {
        var p := probes[i];
        if !p.enabled {
          continue;
        }
        if p.id == 0 {
          return false;
        }
        if p.id in seen {
          assert SameProbe(probes, seen[p.id], i);
          return false;
        }
        seen := seen[p.id := i];
        if !ProbeOk(p) {
          return false;
        }
      }
      return true;
    }

    /** Workers whose probe is gone or changed are cancelled, and their results forgotten. */
    method CancelStale(want: map<nat, Probe>) returns (missing: map<nat, Probe>)
      modifies this`workers, this`results
      ensures forall id :: id in workers <==> Unchanged(old(View()), want, id)
      ensures forall id | id in workers :: id in old(workers) && workers[id] == old(workers)[id]
      ensures forall id :: id in results <==> id in old(results) && (id !in old(workers) || Unchanged(old(View()), want, id))
      ensures forall id | id in results :: results[id] == old(results)[id]
      ensures forall id :: id in missing <==> id in want && !Unchanged(old(View()), want, id)
      ensures forall id | id in missing :: missing[id] == want[id]
    {
      missing := want;
      ghost var m := View();
      var todo := workers.Keys;
      while todo != {}
        invariant todo <= m.workers.Keys
        invariant forall id :: id in workers <==> id in m.workers && (id in todo || Unchanged(m, want, id))
        invariant forall id | id in workers :: workers[id] == m.workers[id]
        invariant forall id :: id in results <==> id in m.results && (id !in m.workers || id in todo || Unchanged(m, want, id))
        invariant forall id | id in results :: results[id] == m.results[id]
        invariant forall id :: id in missing <==> id in want && (id in todo || !Unchanged(m, want, id))
        invariant forall id | id in missing :: missing[id] == want[id]
        decreases todo
      {
        var id :| id in todo;
        if id in missing && missing[id] == workers[id].probe {
          missing := missing - {id};
        } else {
          workers, results := workers - {id}, results - {id};
        }
        todo := todo - {id};
      }
    }

    method StartMissing(missing: map<nat, Probe>)
      requires missing.Keys !! workers.Keys
      modifies this`workers, this`generation
      ensures workers.Keys == old(workers.Keys) + missing.Keys && generation >= old(generation)
      ensures forall id | id in old(workers) :: workers[id] == old(workers)[id]
      ensures forall id | id in missing :: workers[id].probe == missing[id] && old(generation) < workers[id].generation <= generation
      ensures forall id, other | id in missing && other in missing && id != other :: workers[id].generation != workers[other].generation
    {
      var todo := missing.Keys;
      while todo != {}
        invariant todo <= missing.Keys && workers.Keys == old(workers.Keys) + (missing.Keys - todo) && generation >= old(generation)
        invariant forall id | id in old(workers) :: workers[id] == old(workers)[id]
        invariant forall id | id in missing && id !in todo ::
                    workers[id].probe == missing[id] && old(generation) < workers[id].generation <= generation
        invariant forall id, other | id in missing && other in missing && id !in todo && other !in todo && id != other ::
                    workers[id].generation != workers[other].generation
        decreases todo
      {
        var id :| id in todo;
        generation := generation + 1;
        workers := workers[id := Worker(missing[id], generation)];
        todo := todo - {id};
      }
    }

    method Apply(probes: seq<Probe>) returns (ok: bool)
      requires ManagerOk(View())
      modifies this
      ensures ok <==> ProbesOk(probes) && !old(stopped)
      ensures ok ==> ManagerAppliedTo(old(View()), View(), Enabled(probes, |probes|))
      ensures !ok ==> View() == old(View())
      ensures ManagerOk(View())
    {
      ok := Validate(probes);
      if !ok {
        return;
      }
      var want: map<nat, Probe> := map[];
      for n := 0 to |probes|
        invariant want == Enabled(probes, n)
      {
        if probes[n].enabled {
          want := want[probes[n].id := probes[n]];
        }
      }
      if stopped {
        return false;
      }
      ghost var m := View();
      var missing := CancelStale(want);
      StartMissing(missing);
      forall id | id in want ensures want[id].id == id {
        EnabledKeyed(probes, |probes|, id);
      }
      assert ManagerAppliedTo(m, View(), want);
      AppliedOk(m, View(), want);
    }

    method Record(w: Worker, success: bool)
      requires ManagerOk(View())
      modifies this`results
      ensures View() == Recorded(old(View()), w, success) && ManagerOk(View())
    {
      RecordedOk(View(), w, success);
      if stopped || !(w.probe.id in workers && workers[w.probe.id] == w) {
        return;
      }
      results := results[w.probe.id := Outcome(success, w.generation)];
    }

    method Stop()
      requires ManagerOk(View())
      modifies this
      ensures ManagerOk(View()) && stopped && (!old(stopped) ==> workers == map[])
    {
      if stopped {
        return;
      }
      stopped, workers := true, map[];
    }
  }
}
