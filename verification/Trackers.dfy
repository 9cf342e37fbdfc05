/**
 * Connection and source-address limits: limitTracker as a value with its two lock regions, and as the
 * shared object that connections and sessions of all listeners of a rule or tenant hold on to.
 */
module Trackers {

  type Ip = string

  /** effectiveSpeedLimit; a value of 0 or less means no limit. */
  datatype Limit = Limit(uploadBps: int, downloadBps: int, maxConns: int, maxIps: int)

  datatype Tracker = Tracker(limit: Limit, active: int, ipCount: map<Ip, nat>)

  function NewTracker(limit: Limit): Tracker {
    Tracker(limit, 0, map[])
  }

  function Uses(t: Tracker, ip: Ip): nat {
    if ip in t.ipCount then t.ipCount[ip] else 0
  }

  predicate Admits(t: Tracker, ip: Ip) {
    && !(t.limit.maxConns > 0 && t.active >= t.limit.maxConns)
    && !(t.limit.maxIps > 0 && Uses(t, ip) == 0 && |t.ipCount| >= t.limit.maxIps)
  }

  function Acquired(t: Tracker, ip: Ip): Tracker {
    t.(active := t.active + 1, ipCount := t.ipCount[ip := Uses(t, ip) + 1])
  }

  /** release never goes below zero; that it never needs to is proved in Slots. */
  function Released(t: Tracker, ip: Ip): Tracker {
    t.(active := if t.active > 0 then t.active - 1 else t.active,
       ipCount := if Uses(t, ip) <= 1 then t.ipCount - {ip} else t.ipCount[ip := Uses(t, ip) - 1])
  }

  /** All counts of a table added up. */
  ghost function Total(m: map<Ip, nat>): nat {
    if m == map[] then 0 else
      var ip :| ip in m;
      m[ip] + Total(m - {ip})
  }

  lemma {:induction false} TotalWithout(m: map<Ip, nat>, ip: Ip)
    requires ip in m
    ensures Total(m) == m[ip] + Total(m - {ip})
    decreases m
  {
    var first :| first in m && Total(m) == m[first] + Total(m - {first});
    if first != ip {
      TotalWithout(m - {first}, ip);
      TotalWithout(m - {ip}, first);
      assert m - {first} - {ip} == m - {ip} - {first};
    }
  }

  lemma TotalSet(m: map<Ip, nat>, ip: Ip, n: nat)
    ensures Total(m[ip := n]) == Total(m) + n - if ip in m then m[ip] else 0
  {
    TotalWithout(m[ip := n], ip);
    assert m[ip := n] - {ip} == m - {ip};
    if ip in m {
      TotalWithout(m, ip);
    } else {
      assert m - {ip} == m;
    }
  }

  /** Limits hold, no address is listed with a zero count, and the counts add up to the connections. */
  ghost predicate TrackerOk(t: Tracker) {
    && t.active == Total(t.ipCount)
    && (forall ip | ip in t.ipCount :: t.ipCount[ip] >= 1)
    && (t.limit.maxConns > 0 ==> t.active <= t.limit.maxConns)
    && (t.limit.maxIps > 0 ==> |t.ipCount| <= t.limit.maxIps)
  }

  lemma AcquiredOk(t: Tracker, ip: Ip)
    requires TrackerOk(t) && Admits(t, ip)
    ensures TrackerOk(Acquired(t, ip))
  {
    TotalSet(t.ipCount, ip, Uses(t, ip) + 1);
    if ip in t.ipCount {
      assert t.ipCount[ip := Uses(t, ip) + 1].Keys == t.ipCount.Keys;
    }
  }

  /** A slot is refused exactly when taking it would break a limit. */
  lemma AdmitsExactly(t: Tracker, ip: Ip)
    requires TrackerOk(t)
    ensures Admits(t, ip) <==> TrackerOk(Acquired(t, ip))
  {
    TotalSet(t.ipCount, ip, Uses(t, ip) + 1);
    if Admits(t, ip) {
      AcquiredOk(t, ip);
    } else if ip !in t.ipCount {
      assert t.ipCount[ip := 1].Keys == t.ipCount.Keys + {ip};
    }
  }

  /** So every connection there is takes one slot, and only a tracker that is full refuses. */
  lemma RefusesWhenFull(t: Tracker, ip: Ip)
    requires TrackerOk(t)
    ensures !Admits(t, ip) <==>
              (0 < t.limit.maxConns == Total(t.ipCount)) || (0 < t.limit.maxIps == |t.ipCount| && ip !in t.ipCount)
  {
  }

  lemma ReleasedOk(t: Tracker, ip: Ip)
    requires TrackerOk(t) && Uses(t, ip) >= 1
    ensures t.active >= 1 && TrackerOk(Released(t, ip))
  {
    TotalWithout(t.ipCount, ip);
    if Uses(t, ip) > 1 {
      TotalSet(t.ipCount, ip, Uses(t, ip) - 1);
      assert t.ipCount[ip := Uses(t, ip) - 1].Keys == t.ipCount.Keys;
    } else {
      assert (t.ipCount - {ip}).Keys == t.ipCount.Keys - {ip};
    }
  }

  /** Giving a slot back right after taking it restores the tracker exactly, addresses included. */
  lemma ReleaseUndoesAcquire(t: Tracker, ip: Ip)
    requires TrackerOk(t)
    ensures Released(Acquired(t, ip), ip) == t
  {
    if ip in t.ipCount {
      assert t.ipCount[ip := Uses(t, ip) + 1][ip := Uses(t, ip)] == t.ipCount;
    } else {
      assert t.ipCount[ip := 1] - {ip} == t.ipCount;
    }
  }

  class LimitTracker {
    const id: nat
    const limit: Limit
    var active: int
    var ipCount: map<Ip, nat>

    function View(): Tracker
      reads this
    {
      Tracker(limit, active, ipCount)
    }

    constructor (id: nat, limit: Limit)
      ensures this.id == id && View() == NewTracker(limit)
    {
      this.id, this.limit := id, limit;
      active, ipCount := 0, map[];
    }

    method Acquire(ip: Ip) returns (ok: bool)
      modifies this
      ensures ok <==> Admits(old(View()), ip)
      ensures TrackerOk(old(View())) ==> (ok <==> TrackerOk(Acquired(old(View()), ip)))
      ensures View() == if ok then Acquired(old(View()), ip) else old(View())
    {
      if TrackerOk(View()) {
        AdmitsExactly(View(), ip);
      }
      if limit.maxConns > 0 && active >= limit.maxConns {
        return false;
      }
      if limit.maxIps > 0 && (ip !in ipCount || ipCount[ip] == 0) && |ipCount| >= limit.maxIps {
        return false;
      }
      ipCount := ipCount[ip := (if ip in ipCount then ipCount[ip] else 0) + 1];
      active := active + 1;
      return true;
    }

    method Release(ip: Ip)
      modifies this
      ensures View() == Released(old(View()), ip)
    {
      var count := if ip in ipCount then ipCount[ip] else 0;
      if count <= 1 {
        ipCount := ipCount - {ip};
      } else {
        ipCount := ipCount[ip := count - 1];
      }
      if active > 0 {
        active := active - 1;
      }
    }
  }

  /** ruleRuntimeConfig.acquire: the rule's tracker, then the tenant's; a refusal gives the first back. */
  method AcquireBoth(rule: LimitTracker, tenant: LimitTracker?, ip: Ip) returns (ok: bool)
    requires tenant != rule && TrackerOk(rule.View()) && (tenant != null ==> TrackerOk(tenant.View()))
    modifies rule, tenant
    ensures ok <==> TrackerOk(Acquired(old(rule.View()), ip)) && (tenant != null ==> TrackerOk(Acquired(old(tenant.View()), ip)))
    ensures rule.View() == if ok then Acquired(old(rule.View()), ip) else old(rule.View())
    ensures tenant != null ==> tenant.View() == if ok then Acquired(old(tenant.View()), ip) else old(tenant.View())
  {
    ReleaseUndoesAcquire(rule.View(), ip);
    ok := rule.Acquire(ip);
    if !ok {
      return;
    }
    if tenant != null {
      ok := tenant.Acquire(ip);
      if !ok {
        rule.Release(ip);
      }
    }
  }

  /** ruleRuntimeConfig.release: tenant first, then rule. */
  method ReleaseBoth(rule: LimitTracker, tenant: LimitTracker?, ip: Ip)
    requires tenant != rule
    modifies rule, tenant
    ensures rule.View() == Released(old(rule.View()), ip)
    ensures tenant != null ==> tenant.View() == Released(old(tenant.View()), ip)
  {
    if tenant != null {
      tenant.Release(ip);
    }
    rule.Release(ip);
  }
}
