/**
 * The agent's config loop: fetch, render, apply or reject, and stop all listeners when the lease runs out.
 * Times are the readings of the clock that each step takes; None is Go's zero time.
 */
module ConfigSync {
  import opened Common
  import opened Desired
  import opened Runtime
  import opened Apply
  import opened Drains
  import opened Probes
  import opened Combined

  /** In seconds. */
  const DEFAULT_LEASE: int := 120

  /** How long a request to the server may take. */
  const ACK_TIMEOUT: nat := 15

  datatype ConfigStatus = Unknown | Applied | Rejected | RolledBack | LeaseExpired

  datatype Service = Service(rule: Rule, network: Network)

  /** The rendered file: the services it lists and what it is stamped with. */
  datatype Rendered = Rendered(services: seq<Service>, revision: int, generatedAt: int, group: nat, limits: seq<SpeedLimit>,
                               policies: map<nat, string>)

  datatype Sync = Sync(appliedRevision: int, hasSynced: bool, lease: Option<int>, failClosed: bool, configRevision: int,
                       configNonce: string, status: ConfigStatus, ackPending: bool, appliedConfig: AgentConfig)

  // ---- rendering ----

  /** shouldSkipRule: unlike the runtime, the renderer does not skip rules without quota. */
  predicate SkipsService(r: Rule) {
    r.status in ["paused", "disabled", "deleted"] || r.listenPort <= 0 || r.remoteHost == "" || r.remotePort <= 0
  }

  /** normalizeProtocol: a service has one protocol, and anything but udp is tcp. */
  function ServiceNetwork(r: Rule): Network {
    if r.protocol == "udp" then Udp else Tcp
  }

  function Services(rules: seq<Rule>, n: nat): seq<Service>
    requires n <= |rules|
  {
    if n == 0 then []
    else Services(rules, n - 1) + if SkipsService(rules[n - 1]) then [] else [Service(rules[n - 1], ServiceNetwork(rules[n - 1]))]
  }

  function Rendering(c: AgentConfig, now: int): Rendered {
    Rendered(Services(c.rules, |c.rules|), c.revision, if c.generatedAt.Some? then c.generatedAt.value else now, c.group.id,
             c.limits, c.policies)
  }

  /** The file is the rendering of c, up to the stamp of a configuration that carries none. */
  predicate Renders(f: Rendered, c: AgentConfig) {
    f == Rendering(c, f.generatedAt)
  }

  lemma {:induction false} ServicesMean(rules: seq<Rule>, n: nat, x: Service)
    requires n <= |rules|
    ensures x in Services(rules, n) <==> x.rule in rules[..n] && !SkipsService(x.rule) && x.network == ServiceNetwork(x.rule)
  {
    if n > 0 {
      ServicesMean(rules, n - 1, x);
      assert rules[..n] == rules[..n - 1] + [rules[n - 1]];
    }
  }

  /** What the file holds: one service for each rule that is complete and not put away, and the configuration's own stamps. */
  lemma RenderedMeans(c: AgentConfig, now: int, x: Service)
    ensures var f := Rendering(c, now); var r := x.rule;
      && (x in f.services <==>
            && r in c.rules && r.status != "paused" && r.status != "disabled" && r.status != "deleted"
            && r.listenPort > 0 && r.remoteHost != "" && r.remotePort > 0 && (x.network == Udp <==> r.protocol == "udp"))
      && f.revision == c.revision && f.group == c.group.id && f.limits == c.limits && f.policies == c.policies
      && (c.generatedAt.Some? ==> f.generatedAt == c.generatedAt.value) && (c.generatedAt.None? ==> f.generatedAt == now)
  {
    ServicesMean(c.rules, |c.rules|, x);
    assert c.rules[..|c.rules|] == c.rules;
  }

  /**
   * The rendered file against what a node with this configuration serves, rule by rule and network by network: the
   * file lists more exactly for rules out of quota or of an unknown protocol, and less exactly for the UDP half of a
   * rule with both protocols.
   */
  lemma FileAgainstNode(c: AgentConfig, now: int, r: Rule, n: Network)
    requires r in c.rules
    ensures var listed := Service(r, n) in Rendering(c, now).services;
      && (listed && !Serves(r, n) <==>
            !SkipsService(r) && n == ServiceNetwork(r)
            && (r.status == "quota_exhausted" || r.protocol !in ["tcp", "tcp_udp", "", "udp"]))
      && (!listed && Serves(r, n) <==> !Skips(r) && r.protocol == "tcp_udp" && n == Udp)
  {
    ServicesMean(c.rules, |c.rules|, Service(r, n));
    assert c.rules[..|c.rules|] == c.rules;
  }

  // ---- the state changes ----

  function LeaseFrom(c: AgentConfig, now: int): Option<int> {
    if c.validUntil.Some? then c.validUntil else Some(now + DEFAULT_LEASE)
  }

  predicate ExpiredOnArrival(c: AgentConfig, now: int) {
    c.validUntil.Some? && c.validUntil.value <= now
  }

  predicate CanRefresh(s: Sync, c: AgentConfig) {
    s.hasSynced && !s.failClosed && s.appliedRevision == c.revision && s.configNonce == c.nonce
  }

  function Refreshed(s: Sync, c: AgentConfig, now: int): Sync {
    s.(lease := LeaseFrom(c, now))
  }

  function Installed(s: Sync, c: AgentConfig, now: int): Sync {
    s.(appliedRevision := c.revision, hasSynced := true, failClosed := false, lease := LeaseFrom(c, now),
       configRevision := c.revision, configNonce := c.nonce, status := ConfigStatus.Applied, ackPending := true, appliedConfig := c)
  }

  function Refusing(s: Sync, c: AgentConfig): Sync {
    s.(configRevision := c.revision, configNonce := c.nonce,
       status := if s.hasSynced then RolledBack else ConfigStatus.Rejected, ackPending := false)
  }

  predicate LeaseOver(s: Sync, now: int) {
    s.hasSynced && s.lease.Some? && now > s.lease.value && !s.failClosed
  }

  function Closed(s: Sync, now: int): Sync {
    if LeaseOver(s, now) then s.(failClosed := true, status := LeaseExpired) else s
  }

  function Acked(s: Sync, c: AgentConfig, ok: bool): Sync {
    if s.ackPending && c.nonce != "" && ok && s.configRevision == c.revision && s.configNonce == c.nonce
    then s.(ackPending := false) else s
  }

  /** The configuration that stops every listener and probe. */
  function StopConfig(revision: int, now: int): AgentConfig {
    AgentConfig(revision, "", Some(now), Some(now), [], map[], map[], Group(0, None, ""), [], [])
  }

  // ---- what the loop keeps ----

  /** The file renders the applied configuration, and there is none before the first one. */
  predicate FileInStep(s: Sync, file: Option<Rendered>) {
    if s.hasSynced then file.Some? && Renders(file.value, s.appliedConfig) else file.None?
  }

  /** Past its lease, at time now, the agent is closed. */
  predicate Enforced(s: Sync, now: int) {
    s.hasSynced && s.lease.Some? && now > s.lease.value ==> s.failClosed
  }

  // ---- rounds ----

  /** One call's readings of the clock and the outcomes of its input and output. */
  datatype World = World(arrival: int, lease: int, check: int, renderOk: bool, restoreOk: bool, ackOk: bool,
                         grants: set<Bind>, stopGrants: set<Bind>)

  datatype Result = FetchFailed | Expired | RenderFailed | ApplyFailed | Kept(acked: bool) | Replaced(acked: bool)

  predicate Failed(r: Result) {
    !r.Kept? && !r.Replaced?
  }

  predicate SendsAck(s: Sync, c: AgentConfig) {
    s.ackPending && c.nonce != ""
  }

  predicate AckFails(s: Sync, c: AgentConfig, ok: bool) {
    SendsAck(s, c) && !ok
  }

  /** What a round comes to; accepts says whether the node can run the configuration. */
  function Decided(s: Sync, fetched: Option<AgentConfig>, w: World, accepts: bool): Result {
    if fetched.None? then FetchFailed
    else
      var c := fetched.value;
      if ExpiredOnArrival(c, w.arrival) then Expired
      else if CanRefresh(s, c) then Kept(!AckFails(s, c, w.ackOk))
      else if !w.renderOk then RenderFailed
      else if !accepts then ApplyFailed
      else Replaced(!AckFails(Installed(s, c, w.lease), c, w.ackOk))
  }

  /** What a round leaves in memory, by its result; the file is told apart. */
  function After(r: Result, s: Sync, fetched: Option<AgentConfig>, w: World): Sync
    requires fetched.Some? || r.FetchFailed?
  {
    match r
    case FetchFailed => Closed(s, w.check)
    case Kept(_) => Acked(Refreshed(s, fetched.value, w.lease), fetched.value, w.ackOk)
    case Replaced(_) => Acked(Installed(s, fetched.value, w.lease), fetched.value, w.ackOk)
    case _ => Closed(Refusing(s, fetched.value), w.check)
  }

  /** What a round does to the file; nothing is promised when restoring it fails. */
  predicate FileAfter(r: Result, s: Sync, before: Option<Rendered>, file: Option<Rendered>, fetched: Option<AgentConfig>, w: World)
    requires fetched.Some? || r.FetchFailed?
  {
    match r
    case Replaced(_) => file == Some(Rendering(fetched.value, w.arrival))
    case ApplyFailed => w.restoreOk ==> file == if s.hasSynced then Some(Rendering(s.appliedConfig, w.lease)) else None
    case _ => file == before
  }

  /** What is applied, and until when, is as it was. */
  predicate KeepsApplied(s: Sync, v: Sync) {
    v.hasSynced == s.hasSynced && v.appliedConfig == s.appliedConfig && v.appliedRevision == s.appliedRevision && v.lease == s.lease
  }

  lemma RoundMeans(r: Result, s: Sync, before: Option<Rendered>, file: Option<Rendered>, fetched: Option<AgentConfig>, w: World)
    requires fetched.Some? || r.FetchFailed?
    requires FileAfter(r, s, before, file, fetched, w) && (r.Kept? ==> CanRefresh(s, fetched.value))
    ensures var v := After(r, s, fetched, w);
      && (Failed(r) ==> Enforced(v, w.check) && KeepsApplied(s, v))
      && (s.failClosed ==> (v.failClosed <==> !r.Replaced?))
      && (FileInStep(s, before) && w.restoreOk ==> FileInStep(v, file))
  {
  }

  datatype Round = Round(fetched: Option<AgentConfig>, w: World, accepts: bool)

  function ResultOf(s: Sync, x: Round): Result {
    Decided(s, x.fetched, x.w, x.accepts)
  }

  function Next(s: Sync, x: Round): Sync {
    After(ResultOf(s, x), s, x.fetched, x.w)
  }

  function AfterAll(s: Sync, rounds: seq<Round>): Sync {
    if rounds == [] then s else Next(AfterAll(s, rounds[..|rounds| - 1]), rounds[|rounds| - 1])
  }

  /** What a round comes to, from what was fetched, what is remembered and how the attempts go. */
  lemma ResultMeans(s: Sync, x: Round)
    requires x.fetched.Some?
    ensures var r, c := ResultOf(s, x), x.fetched.value;
      var late := c.validUntil.Some? && c.validUntil.value <= x.w.arrival;
      var same := s.hasSynced && !s.failClosed && c.revision == s.appliedRevision && c.nonce == s.configNonce;
      && !r.FetchFailed? && (r.Expired? <==> late) && (r.Kept? <==> !late && same)
      && (r.RenderFailed? <==> !late && !same && !x.w.renderOk)
      && (r.ApplyFailed? <==> !late && !same && x.w.renderOk && !x.accepts)
      && (r.Kept? ==> (r.acked <==> x.w.ackOk || c.nonce == "" || !s.ackPending))
      && (r.Replaced? ==> (r.acked <==> x.w.ackOk || c.nonce == ""))
  {
  }

  /** A round that keeps or installs a configuration: its lease, two minutes unless it names an end, and what is known. */
  lemma TakenMeans(s: Sync, x: Round)
    requires ResultOf(s, x).Kept? || ResultOf(s, x).Replaced?
    ensures var c := x.fetched.value;
      var lease := Some(if c.validUntil.Some? then c.validUntil.value else x.w.lease + 120);
      Next(s, x) == if ResultOf(s, x).Kept?
                    then s.(lease := lease,
                            ackPending := s.ackPending && (c.nonce == "" || !x.w.ackOk || s.configRevision != c.revision))
                    else Sync(c.revision, true, lease, false, c.revision, c.nonce, ConfigStatus.Applied,
                              c.nonce == "" || !x.w.ackOk, c)
  {
  }

  /**
   * A round that fails keeps what is applied and its lease, and closes an open agent exactly when that lease has ended
   * by the time it is looked at: not before, not at its very end.
   */
  lemma FailedMeans(s: Sync, x: Round)
    requires Failed(ResultOf(s, x))
    ensures var v := Next(s, x);
      var over := s.hasSynced && !s.failClosed && s.lease.Some? && s.lease.value < x.w.check;
      && v.appliedRevision == s.appliedRevision && v.hasSynced == s.hasSynced && v.lease == s.lease
      && v.appliedConfig == s.appliedConfig && v.failClosed == (s.failClosed || over)
      && (over ==> v.status == LeaseExpired)
      && match x.fetched
         case None =>
           v.configRevision == s.configRevision && v.configNonce == s.configNonce && v.ackPending == s.ackPending
           && (!over ==> v.status == s.status)
         case Some(c) =>
           v.configRevision == c.revision && v.configNonce == c.nonce && !v.ackPending
           && (!over ==> v.status == if s.hasSynced then RolledBack else ConfigStatus.Rejected)
  {
  }

  /** The round does not fail after the lease that the agent has then. */
  predicate WithinLease(s: Sync, x: Round) {
    Failed(ResultOf(s, x)) && s.lease.Some? ==> x.w.check <= s.lease.value
  }

  lemma StaysOpen(s: Sync, x: Round)
    requires !s.failClosed && WithinLease(s, x)
    ensures !Next(s, x).failClosed
  {
    if Failed(ResultOf(s, x)) {
      FailedMeans(s, x);
    } else {
      TakenMeans(s, x);
    }
  }

  /** An open agent stays open over any run whose failed rounds fall within the lease it then has. */
  lemma {:induction false} OpenWithinLease(s: Sync, rounds: seq<Round>)
    requires !s.failClosed
    requires forall i | 0 <= i < |rounds| :: WithinLease(AfterAll(s, rounds[..i]), rounds[i])
    ensures !AfterAll(s, rounds).failClosed
  {
    if rounds != [] {
      var n := |rounds| - 1;
      forall i | 0 <= i < n ensures WithinLease(AfterAll(s, rounds[..n][..i]), rounds[..n][i]) {
        assert rounds[..n][..i] == rounds[..i];
      }
      OpenWithinLease(s, rounds[..n]);
      StaysOpen(AfterAll(s, rounds[..n]), rounds[n]);
    }
  }

  /** A closed agent opens again only by applying a whole configuration, never by a lease alone, in any run. */
  lemma {:induction false} ClosedUntilReplaced(s: Sync, rounds: seq<Round>)
    requires s.failClosed
    requires forall i | 0 <= i < |rounds| :: !ResultOf(AfterAll(s, rounds[..i]), rounds[i]).Replaced?
    ensures AfterAll(s, rounds).failClosed
  {
    if rounds != [] {
      var n := |rounds| - 1;
      forall i | 0 <= i < n ensures !ResultOf(AfterAll(s, rounds[..n][..i]), rounds[..n][i]).Replaced? {
        assert rounds[..n][..i] == rounds[..i];
      }
      ClosedUntilReplaced(s, rounds[..n]);
    }
  }

  // ---- errors and the lease ----

  /** The round returns an error. */
  predicate Errs(r: Result) {
    Failed(r) || (r.Kept? && !r.acked) || (r.Replaced? && !r.acked)
  }

  /**
   * When a round can return: a failed one right after looking at the lease, the others when the acknowledgement, if
   * one is sent, has been answered or given up, which takes up to d.
   */
  predicate ReturnsAt(s: Sync, x: Round, d: nat, returned: int) {
    if Failed(ResultOf(s, x)) then returned == x.w.check
    else x.w.lease <= returned <= x.w.lease + if AcksIn(s, x) then d else 0
  }

  /** The round sends an acknowledgement, known before it is sent. */
  predicate AcksIn(s: Sync, x: Round)
    requires x.fetched.Some?
  {
    SendsAck(if CanRefresh(s, x.fetched.value) then s else Installed(s, x.fetched.value, x.w.lease), x.fetched.value)
  }

  predicate Safe(s: Sync, x: Round, d: nat, ackOk: bool, returned: int) {
    var y := x.(w := x.w.(ackOk := ackOk));
    Errs(ResultOf(s, y)) && ReturnsAt(s, y, d, returned) ==> Enforced(Next(s, y), returned)
  }

  /**
   * Known before an acknowledgement is sent: none will be, or the lease lasts for as long as it may take. Rounds that
   * fail before that always look at the lease.
   */
  predicate LeaseOutlasts(s: Sync, x: Round, d: nat) {
    Failed(ResultOf(s, x)) || !AcksIn(s, x) || LeaseFrom(x.fetched.value, x.w.lease).value >= x.w.lease + d
  }

  /**
   * Over every result of a round, every answer to the acknowledgement and every time it may take: an error return past
   * the lease leaves the agent closed if and only if no acknowledgement is sent or the lease outlasts it.
   */
  lemma ErrorsAreEnforcedIff(s: Sync, x: Round, d: nat)
    ensures (forall ackOk, returned :: Safe(s, x, d, ackOk, returned)) <==> LeaseOutlasts(s, x, d)
  {
    if LeaseOutlasts(s, x, d) {
      forall ackOk, returned ensures Safe(s, x, d, ackOk, returned) {
        assert Failed(ResultOf(s, x.(w := x.w.(ackOk := ackOk)))) <==> Failed(ResultOf(s, x));
      }
    } else {
      assert !Safe(s, x, d, false, x.w.lease + d);
    }
  }

  /** The client gives up on a request after 15 seconds, and a lease may end within them, on either branch. */
  lemma UnenforcedErrors(s: Sync, c: AgentConfig, w: World)
    requires c.validUntil == Some(100) && c.nonce != "" && !CanRefresh(s, c)
    requires w.arrival == w.lease == 99 && w.renderOk && !w.ackOk
    ensures var x := Round(Some(c), w, true);
      && ResultOf(s, x) == Replaced(false) && ReturnsAt(s, x, ACK_TIMEOUT, 102) && !Enforced(Next(s, x), 102)
    ensures var x := Round(Some(c), w, true); var t := Next(s, x);
      && ResultOf(t, x) == Kept(false) && ReturnsAt(t, x, ACK_TIMEOUT, 102) && !Enforced(Next(t, x), 102)
  {
  }

  // ---- refreshing and the nonce ----

  /** The server derives the nonce from the revision: what is remembered and what is applied both follow it. */
  predicate NoncesFollow(s: Sync, nonce: int -> string) {
    s.hasSynced ==> s.appliedRevision == s.appliedConfig.revision && s.appliedConfig.nonce == nonce(s.appliedConfig.revision)
                    && s.configNonce == nonce(s.configRevision)
  }

  predicate FollowsNonce(x: Round, nonce: int -> string) {
    x.fetched.Some? ==> x.fetched.value.nonce == nonce(x.fetched.value.revision)
  }

  lemma NonceStays(s: Sync, x: Round, nonce: int -> string)
    requires NoncesFollow(s, nonce) && FollowsNonce(x, nonce)
    ensures NoncesFollow(Next(s, x), nonce)
  {
  }

  lemma {:induction false} NoncesStay(s: Sync, rounds: seq<Round>, nonce: int -> string)
    requires NoncesFollow(s, nonce) && forall i | 0 <= i < |rounds| :: FollowsNonce(rounds[i], nonce)
    ensures NoncesFollow(AfterAll(s, rounds), nonce)
  {
    if rounds != [] {
      NoncesStay(s, rounds[..|rounds| - 1], nonce);
      NonceStays(AfterAll(s, rounds[..|rounds| - 1]), rounds[|rounds| - 1], nonce);
    }
  }

  /** Then a lease is refreshed only for the revision and the nonce that are applied, after any rounds. */
  lemma RefreshIsSound(s: Sync, rounds: seq<Round>, c: AgentConfig, nonce: int -> string)
    requires NoncesFollow(s, nonce) && forall i | 0 <= i < |rounds| :: FollowsNonce(rounds[i], nonce)
    requires CanRefresh(AfterAll(s, rounds), c) && c.nonce == nonce(c.revision)
    ensures var v := AfterAll(s, rounds); v.appliedConfig.revision == c.revision && v.appliedConfig.nonce == c.nonce
  {
    NoncesStay(s, rounds, nonce);
  }

  /**
   * Whatever nonces a server sends: an open agent refreshes its lease only for the nonce that is applied if and only
   * if the nonce it remembers is still that one.
   */
  lemma RefreshIsSoundIff(v: Sync)
    requires v.hasSynced && !v.failClosed && v.appliedRevision == v.appliedConfig.revision
    ensures (forall c | CanRefresh(v, c) :: c.nonce == v.appliedConfig.nonce) <==> v.configNonce == v.appliedConfig.nonce
    ensures forall c | CanRefresh(v, c) :: c.revision == v.appliedConfig.revision
  {
    assert CanRefresh(v, v.appliedConfig.(nonce := v.configNonce));
  }

  /** A run that breaks it: the revision comes again under another nonce and too late, and then once more in time. */
  lemma RefreshNeedsNonces(s: Sync, c: AgentConfig, w: World)
    requires c.nonce == "a" && c.validUntil.None? && !CanRefresh(s, c) && w.renderOk && w.check <= w.lease
    ensures var b := c.(nonce := "b"); var late := b.(validUntil := Some(w.arrival));
      var t := AfterAll(s, [Round(Some(c), w, true), Round(Some(late), w, true)]);
      ResultOf(t, Round(Some(b), w, true)).Kept? && t.appliedConfig == c
  {
    var b := c.(nonce := "b");
    var x, y := Round(Some(c), w, true), Round(Some(b.(validUntil := Some(w.arrival))), w, true);
    assert [x, y][..1] == [x] && [x][..0] == [];
    assert AfterAll(s, [x]) == Next(s, x) && AfterAll(s, [x, y]) == Next(Next(s, x), y);
  }

  class Renderer {
    var file: Option<Rendered>

    constructor ()
      ensures file == None
    {
      file := None;
    }

    /** The file is replaced as a whole by a rename, or not at all; an equal file is left alone. */
    method Render(c: AgentConfig, now: int, ok: bool)
      modifies this
      ensures file == if ok then Some(Rendering(c, now)) else old(file)
    {
      if !ok {
        return;
      }
      var services: seq<Service> := [];
      for n := 0 to |c.rules|
        invariant services == Services(c.rules, n)
      {
        if SkipsService(c.rules[n]) {
          continue;
        }
        var network := Tcp;
        if c.rules[n].protocol == "udp" {
          network := Udp;
        }
        services := services + [Service(c.rules[n], network)];
      }
      var stamp := now;
      if c.generatedAt.Some? {
        stamp := c.generatedAt.value;
      }
      var content := Rendered(services, c.revision, stamp, c.group.id, c.limits, c.policies);
      if file != Some(content) {
        file := Some(content);
      }
    }

    method Remove(ok: bool)
      modifies this
      ensures file == if ok then None else old(file)
    {
      if ok {
        file := None;
      }
    }
  }

  class Syncer {
    const runtime: CombinedRuntime
    const renderer: Renderer
    var appliedRevision: int
    var hasSynced: bool
    var lease: Option<int>
    var failClosed: bool
    var configRevision: int
    var configNonce: string
    var status: ConfigStatus
    var ackPending: bool
    var appliedConfig: AgentConfig

    function View(): Sync
      reads this
    {
      Sync(appliedRevision, hasSynced, lease, failClosed, configRevision, configNonce, status, ackPending, appliedConfig)
    }

    /** A new agent: nothing runs and nothing has been applied. */
    constructor (runtime: CombinedRuntime, renderer: Renderer)
      requires runtime.Valid() && runtime.forwarding.listeners == map[]
      requires runtime.forwarding.closed <==> runtime.probes.stopped
      ensures Valid() && this.runtime == runtime && this.renderer == renderer && !hasSynced && !failClosed
    {
      this.runtime, this.renderer := runtime, renderer;
      appliedRevision, hasSynced, lease, failClosed := 0, false, None, false;
      configRevision, configNonce, status, ackPending := 0, "", Unknown, false;
      appliedConfig := StopConfig(0, 0);
    }

    /** Memory and node agree: what is applied is what runs, and a closed agent runs nothing. */
    ghost predicate Valid()
      reads this, runtime, runtime.forwarding, runtime.probes
    {
      && runtime.Valid() && runtime.Together()
      && (hasSynced ==> lease.Some? && appliedRevision == appliedConfig.revision)
      && (failClosed ==> hasSynced)
      && (hasSynced && !failClosed && !runtime.forwarding.closed ==> appliedConfig in runtime.doing)
      && (failClosed || !hasSynced ==> runtime.forwarding.listeners == map[])
    }

    method RefreshCurrentLease(c: AgentConfig, now: int) returns (ok: bool)
      modifies this`lease
      ensures ok <==> CanRefresh(old(View()), c)
      ensures View() == if ok then Refreshed(old(View()), c, now) else old(View())
    {
      if !hasSynced || failClosed || appliedRevision != c.revision || configNonce != c.nonce {
        return false;
      }
      lease := c.validUntil;
      if lease.None? {
        lease := Some(now + DEFAULT_LEASE);
      }
      return true;
    }

    method RejectConfig(c: AgentConfig)
      modifies this`configRevision, this`configNonce, this`status, this`ackPending
      ensures View() == Refusing(old(View()), c)
    {
      configRevision, configNonce, ackPending := c.revision, c.nonce, false;
      status := ConfigStatus.Rejected;
      if hasSynced {
        status := RolledBack;
      }
    }

    /** Past the lease every listener and probe stops. */
    method FailClosedIfLeaseExpired(now: int, grants: set<Bind>)
      requires Valid()
      modifies this`failClosed, this`status, runtime, runtime.forwarding, runtime.probes
      ensures Valid() && View() == Closed(old(View()), now) && Enforced(View(), now)
      ensures failClosed <==> old(failClosed) || (old(hasSynced) && now > old(lease.value))
      ensures failClosed ==> runtime.forwarding.listeners == map[]
      ensures failClosed == old(failClosed) ==>
                runtime.forwarding.listeners == old(runtime.forwarding.listeners) && runtime.probes.View() == old(runtime.probes.View())
      ensures runtime.forwarding.closed == old(runtime.forwarding.closed)
    {
      if !(hasSynced && lease.Some? && now > lease.value && !failClosed) {
        return;
      }
      failClosed := true;
      var ok := runtime.Switch(StopConfig(appliedRevision, now), grants);
      status := LeaseExpired;
    }

    method RejectAndEnforceLease(c: AgentConfig, now: int, grants: set<Bind>)
      requires Valid()
      modifies this, runtime, runtime.forwarding, runtime.probes
      ensures Valid() && View() == Closed(Refusing(old(View()), c), now) && Enforced(View(), now)
      ensures !LeaseOver(old(View()), now) ==>
                runtime.forwarding.listeners == old(runtime.forwarding.listeners) && runtime.probes.View() == old(runtime.probes.View())
      ensures runtime.forwarding.closed == old(runtime.forwarding.closed)
    {
      RejectConfig(c);
      FailClosedIfLeaseExpired(now, grants);
    }

    method RestoreRenderedConfig(now: int, ok: bool)
      modifies renderer
      ensures renderer.file == if !ok then old(renderer.file) else if hasSynced then Some(Rendering(appliedConfig, now)) else None
    {
      if !hasSynced {
        renderer.Remove(ok);
        return;
      }
      renderer.Render(appliedConfig, now, ok);
    }

    method AckAppliedIfPending(c: AgentConfig, ok: bool) returns (acked: bool)
      modifies this`ackPending
      ensures View() == Acked(old(View()), c, ok)
      ensures acked <==> !AckFails(old(View()), c, ok)
    {
      if !ackPending || c.nonce == "" {
        return true;
      }
      if !ok {
        return false;
      }
      if configRevision == c.revision && configNonce == c.nonce {
        ackPending := false;
      }
      return true;
    }

    method Remember(c: AgentConfig, now: int)
      modifies this
      ensures View() == Installed(old(View()), c, now)
    {
      appliedRevision, hasSynced, failClosed, lease := c.revision, true, false, c.validUntil;
      if lease.None? {
        lease := Some(now + DEFAULT_LEASE);
      }
      configRevision, configNonce, status, ackPending, appliedConfig := c.revision, c.nonce, ConfigStatus.Applied, true, c;
    }

    /** Remember an applied configuration and acknowledge it. */
    method Accept(c: AgentConfig, now: int, ackOk: bool) returns (acked: bool)
      requires runtime.Valid() && runtime.Together() && c in runtime.doing
      modifies this
      ensures Valid() && View() == Acked(Installed(old(View()), c, now), c, ackOk)
      ensures acked <==> !AckFails(Installed(old(View()), c, now), c, ackOk)
    {
      Remember(c, now);
      acked := AckAppliedIfPending(c, ackOk);
    }

    /** Give up on a configuration the runtime refused: the old file comes back if it can be written. */
    method GiveUp(c: AgentConfig, w: World) returns (r: Result)
      requires Valid()
      modifies this, renderer, runtime, runtime.forwarding, runtime.probes
      ensures Valid() && runtime.forwarding.closed == old(runtime.forwarding.closed) && r == ApplyFailed
      ensures View() == Closed(Refusing(old(View()), c), w.check)
      ensures !LeaseOver(old(View()), w.check) ==>
                runtime.forwarding.listeners == old(runtime.forwarding.listeners) && runtime.probes.View() == old(runtime.probes.View())
      ensures w.restoreOk ==> renderer.file == if old(hasSynced) then Some(Rendering(old(appliedConfig), w.lease)) else None
    {
      RestoreRenderedConfig(w.lease, w.restoreOk);
      RejectAndEnforceLease(c, w.check, w.stopGrants);
      return ApplyFailed;
    }

    /** Hand a configuration to the runtime; a refusal changes nothing that the agent has promised. */
    method Offer(c: AgentConfig, grants: set<Bind>) returns (ok: bool)
      requires Valid()
      modifies runtime, runtime.forwarding, runtime.probes
      ensures runtime.Valid() && runtime.Together() && runtime.forwarding.closed == old(runtime.forwarding.closed)
      ensures ok <==> Servable(old(runtime.forwarding.View()), c, grants)
      ensures ok ==> c in runtime.doing
      ensures !ok ==> Valid() && runtime.forwarding.listeners == old(runtime.forwarding.listeners)
                      && runtime.probes.View() == old(runtime.probes.View())
    {
      ok := runtime.Switch(c, grants);
    }

    method ApplyRendered(c: AgentConfig, w: World) returns (r: Result)
      requires Valid()
      modifies this, renderer, runtime, runtime.forwarding, runtime.probes
      ensures Valid() && runtime.forwarding.closed == old(runtime.forwarding.closed)
      ensures r == if Servable(old(runtime.forwarding.View()), c, w.grants)
                   then Replaced(!AckFails(Installed(old(View()), c, w.lease), c, w.ackOk)) else ApplyFailed
      ensures View() == if r.ApplyFailed? then Closed(Refusing(old(View()), c), w.check)
                        else Acked(Installed(old(View()), c, w.lease), c, w.ackOk)
      ensures r.ApplyFailed? && !LeaseOver(old(View()), w.check) ==>
                runtime.forwarding.listeners == old(runtime.forwarding.listeners) && runtime.probes.View() == old(runtime.probes.View())
      ensures r.Replaced? ==> renderer.file == old(renderer.file) && c in runtime.doing
      ensures r.ApplyFailed? && w.restoreOk ==>
                renderer.file == if old(hasSynced) then Some(Rendering(old(appliedConfig), w.lease)) else None
    {
      var ok := Offer(c, w.grants);
      if !ok {
        r := GiveUp(c, w);
      } else {
        var acked := Accept(c, w.lease, w.ackOk);
        r := Replaced(acked);
      }
    }

    /** Render and apply a configuration that is not the one running. */
    method Install(c: AgentConfig, w: World) returns (r: Result)
      requires Valid()
      modifies this, renderer, runtime, runtime.forwarding, runtime.probes
      ensures Valid() && runtime.forwarding.closed == old(runtime.forwarding.closed)
      ensures r == if !w.renderOk then RenderFailed else if Servable(old(runtime.forwarding.View()), c, w.grants)
                   then Replaced(!AckFails(Installed(old(View()), c, w.lease), c, w.ackOk)) else ApplyFailed
      ensures View() == After(r, old(View()), Some(c), w)
      ensures Failed(r) && !LeaseOver(old(View()), w.check) ==>
                runtime.forwarding.listeners == old(runtime.forwarding.listeners) && runtime.probes.View() == old(runtime.probes.View())
      ensures r.Replaced? ==> c in runtime.doing
      ensures FileAfter(r, old(View()), old(renderer.file), renderer.file, Some(c), w)
    {
      renderer.Render(c, w.arrival, w.renderOk);
      if !w.renderOk {
        RejectAndEnforceLease(c, w.check, w.stopGrants);
        r := RenderFailed;
      } else {
        r := ApplyRendered(c, w);
      }
    }

    /** The shortcut for the configuration that is already running. */
    method KeepLease(c: AgentConfig, now: int, ackOk: bool) returns (kept: bool, acked: bool)
      requires Valid()
      modifies this
      ensures Valid() && (kept <==> CanRefresh(old(View()), c))
      ensures View() == if kept then Acked(Refreshed(old(View()), c, now), c, ackOk) else old(View())
      ensures kept ==> (acked <==> !AckFails(old(View()), c, ackOk))
    {
      acked := false;
      kept := RefreshCurrentLease(c, now);
      if kept {
        acked := AckAppliedIfPending(c, ackOk);
      }
    }

    /** A configuration that is in time: keep its lease, or install it. */
    method Take(c: AgentConfig, w: World) returns (r: Result)
      requires Valid() && !ExpiredOnArrival(c, w.arrival)
      modifies this, renderer, runtime, runtime.forwarding, runtime.probes
      ensures Valid() && runtime.forwarding.closed == old(runtime.forwarding.closed)
      ensures r == Decided(old(View()), Some(c), w, Servable(old(runtime.forwarding.View()), c, w.grants))
      ensures View() == After(r, old(View()), Some(c), w)
      ensures (Failed(r) && !LeaseOver(old(View()), w.check)) || r.Kept? ==>
                runtime.forwarding.listeners == old(runtime.forwarding.listeners) && runtime.probes.View() == old(runtime.probes.View())
      ensures r.Replaced? ==> c in runtime.doing
      ensures FileAfter(r, old(View()), old(renderer.file), renderer.file, Some(c), w)
    {
      var kept, acked := KeepLease(c, w.lease, w.ackOk);
      if kept {
        return Kept(acked);
      }
      r := Install(c, w);
    }

    /** One round, its result and everything it leaves behind. */
    method RunRound(fetched: Option<AgentConfig>, w: World) returns (r: Result)
      requires Valid()
      modifies this, renderer, runtime, runtime.forwarding, runtime.probes
      ensures Valid() && runtime.forwarding.closed == old(runtime.forwarding.closed)
      ensures r == Decided(old(View()), fetched, w,
                           fetched.Some? && Servable(old(runtime.forwarding.View()), fetched.value, w.grants))
      ensures View() == After(r, old(View()), fetched, w)
      ensures (Failed(r) && !LeaseOver(old(View()), w.check)) || r.Kept? ==>
                runtime.forwarding.listeners == old(runtime.forwarding.listeners) && runtime.probes.View() == old(runtime.probes.View())
      ensures r.Replaced? ==> fetched.value in runtime.doing
      ensures FileAfter(r, old(View()), old(renderer.file), renderer.file, fetched, w)
    {
      if fetched.None? {
        FailClosedIfLeaseExpired(w.check, w.stopGrants);
        return FetchFailed;
      }
      var c := fetched.value;
      if c.validUntil.Some? && c.validUntil.value <= w.arrival {
        RejectAndEnforceLease(c, w.check, w.stopGrants);
        return Expired;
      }
      r := Take(c, w);
    }

    /**
     * The same round, in what it promises: memory, node and file stay in step, a failed round enforces the lease, a
     * closed agent opens again only by a whole configuration, and what is kept is what runs.
     */
    method SyncOnce(fetched: Option<AgentConfig>, w: World) returns (r: Result)
      requires Valid()
      modifies this, renderer, runtime, runtime.forwarding, runtime.probes
      ensures Valid() && runtime.forwarding.closed == old(runtime.forwarding.closed)
      ensures r == Decided(old(View()), fetched, w,
                           fetched.Some? && Servable(old(runtime.forwarding.View()), fetched.value, w.grants))
      ensures View() == After(r, old(View()), fetched, w)
      ensures failClosed <==>
                (old(failClosed) && !r.Replaced?) || (Failed(r) && old(hasSynced) && w.check > old(lease.value))
      ensures (Failed(r) && failClosed == old(failClosed)) || r.Kept? ==>
                runtime.forwarding.listeners == old(runtime.forwarding.listeners) && runtime.probes.View() == old(runtime.probes.View())
      ensures r.Replaced? ==> fetched.value in runtime.doing
      ensures Failed(r) ==> Enforced(View(), w.check) && KeepsApplied(old(View()), View())
      ensures old(failClosed) ==> (failClosed <==> !r.Replaced?)
      ensures r.Kept? ==> fetched.value.revision == appliedConfig.revision && fetched.value.nonce == old(configNonce)
      ensures r.Kept? && !runtime.forwarding.closed ==> appliedConfig in runtime.doing
      ensures w.restoreOk && old(FileInStep(View(), renderer.file)) ==> FileInStep(View(), renderer.file)
    {
      ghost var s, before := View(), renderer.file;
      r := RunRound(fetched, w);
      RoundMeans(r, s, before, renderer.file, fetched, w);
    }

    /** Drains that end meanwhile, in the runtime's own goroutines: only what drains and which sockets are held change. */
    method EndDrains(stopped: seq<Listener>, forgotten: seq<Listener>)
      requires Valid()
      modifies runtime.forwarding
      ensures Valid() && View() == old(View()) && runtime.forwarding.listeners == old(runtime.forwarding.listeners)
      ensures runtime.forwarding.closed == old(runtime.forwarding.closed)
    {
      for i := 0 to |stopped|
        invariant Valid() && runtime.forwarding.listeners == old(runtime.forwarding.listeners)
        invariant runtime.forwarding.closed == old(runtime.forwarding.closed)
      {
        runtime.StopDraining(stopped[i]);
      }
      for i := 0 to |forgotten|
        invariant Valid() && runtime.forwarding.listeners == old(runtime.forwarding.listeners)
        invariant runtime.forwarding.closed == old(runtime.forwarding.closed)
      {
        runtime.ForgetDrained(forgotten[i]);
      }
    }

    method TakeTurn(turn: Turn) returns (r: Result, ghost x: Round)
      requires Valid()
      modifies this, renderer, runtime, runtime.forwarding, runtime.probes
      ensures Valid() && x.fetched == turn.fetched && x.w == turn.w
      ensures r == ResultOf(old(View()), x) && View() == Next(old(View()), x)
      ensures turn.w.restoreOk && old(FileInStep(View(), renderer.file)) ==> FileInStep(View(), renderer.file)
    {
      EndDrains(turn.stopped, turn.forgotten);
      ghost var accepts := turn.fetched.Some? && Servable(runtime.forwarding.View(), turn.fetched.value, turn.w.grants);
      x := Round(turn.fetched, turn.w, accepts);
      r := SyncOnce(turn.fetched, turn.w);
    }

    /** The main loop over any outcomes whatsoever, and any drains that end between its rounds. */
    method Loop(turns: seq<Turn>) returns (results: seq<Result>, ghost rounds: seq<Round>)
      requires Valid() && FileInStep(View(), renderer.file)
      modifies this, renderer, runtime, runtime.forwarding, runtime.probes
      ensures Valid() && View() == AfterAll(old(View()), rounds)
      ensures Followed(old(View()), turns, rounds, results)
      ensures (forall i | 0 <= i < |turns| :: turns[i].w.restoreOk) ==> FileInStep(View(), renderer.file)
    {
      results, rounds := [], [];
      ghost var s := View();
      for i := 0 to |turns|
        invariant Valid() && View() == AfterAll(s, rounds)
        invariant Followed(s, turns[..i], rounds, results)
        invariant (forall j | 0 <= j < i :: turns[j].w.restoreOk) ==> FileInStep(View(), renderer.file)
      {
        var r: Result;
        ghost var x: Round;
        r, x := TakeTurn(turns[i]);
        FollowedOneMore(s, turns, i, rounds, results, x, r);
        results, rounds := results + [r], rounds + [x];
      }
      assert turns[..|turns|] == turns;
    }
  }

  /** The rounds took the turns' configurations and outcomes, and came to these results one after the other. */
  ghost predicate Followed(s: Sync, turns: seq<Turn>, rounds: seq<Round>, results: seq<Result>) {
    && |results| == |rounds| == |turns|
    && forall i | 0 <= i < |turns| ::
         && rounds[i].fetched == turns[i].fetched && rounds[i].w == turns[i].w
         && results[i] == ResultOf(AfterAll(s, rounds[..i]), rounds[i])
  }

  lemma FollowedOneMore(s: Sync, turns: seq<Turn>, i: nat, rounds: seq<Round>, results: seq<Result>, x: Round, r: Result)
    requires i < |turns| && Followed(s, turns[..i], rounds, results)
    requires x.fetched == turns[i].fetched && x.w == turns[i].w && r == ResultOf(AfterAll(s, rounds), x)
    ensures Followed(s, turns[..i + 1], rounds + [x], results + [r])
    ensures AfterAll(s, rounds + [x]) == Next(AfterAll(s, rounds), x)
  {
    assert (rounds + [x])[..|rounds|] == rounds;
    forall j | 0 <= j <= i ensures (rounds + [x])[..j] == rounds[..j] {
    }
  }

  /** Listeners whose drains end before a round, and the round. */
  datatype Turn = Turn(stopped: seq<Listener>, forgotten: seq<Listener>, fetched: Option<AgentConfig>, w: World)

  /** So in every run of the loop a lease is kept only for the revision and the nonce that are applied at that point. */
  lemma KeptIsApplied(s: Sync, turns: seq<Turn>, rounds: seq<Round>, results: seq<Result>, i: nat, nonce: int -> string)
    requires NoncesFollow(s, nonce) && Followed(s, turns, rounds, results) && i < |turns| && results[i].Kept?
    requires forall j | 0 <= j < |rounds| :: FollowsNonce(rounds[j], nonce)
    ensures turns[i].fetched.Some?
    ensures var v, c := AfterAll(s, rounds[..i]), turns[i].fetched.value;
            v.appliedConfig.revision == c.revision && v.appliedConfig.nonce == c.nonce
  {
    forall j | 0 <= j < i ensures FollowsNonce(rounds[..i][j], nonce) {
    }
    assert FollowsNonce(rounds[i], nonce);
    RefreshIsSound(s, rounds[..i], turns[i].fetched.value, nonce);
  }

  /**
   * A closed agent comes back: once its drains have stopped it holds no socket, and the next configuration is applied
   * if and only if it is in time, renders, has valid probes and a tunnel for every live rule, and asks for sockets of
   * its own that the system grants.
   */
  lemma ClosedAgentReopens(rt: State, s: Sync, c: AgentConfig, w: World)
    requires RuntimeOk(rt) && rt.listeners == map[] && !rt.closed && s.failClosed
    requires forall l | l in rt.draining :: !KeepsSocket(l)
    ensures Decided(s, Some(c), w, Servable(rt, c, w.grants)).Replaced? <==>
              && !ExpiredOnArrival(c, w.arrival) && w.renderOk && ProbesOk(c.probes) && DesiredOf(c).Ok?
              && OwnSockets(DesiredOf(c).value) && forall k | k in DesiredOf(c).value :: BindOf(DesiredOf(c).value[k]) in w.grants
  {
    if DesiredOf(c).Ok? {
      NothingLeaks(rt, DesiredOf(c).value, w.grants);
    }
  }
}
