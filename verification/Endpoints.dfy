/** Endpoint candidates, probe claims and verifications: heartbeats with generations, leased probe
    attempts, and the evidence behind a verified endpoint.

    A heartbeat digest is the heartbeat itself.  The endpoint a claim query picks (its ORDER BY) is an
    input of the claim step. */
module Endpoints {
  import opened Domain
  import opened DesiredState
  import opened Plane

  datatype EndpointKey = EndpointKey(node: NodeId, endpoint: EndpointId)
  datatype RevisionKey = RevisionKey(node: NodeId, revision: nat)

  datatype Mode = Direct | Relay
  datatype Source = Manual | Pcp | NatPmp | Upnp | RelayLease

  /** The immutable fields of a candidate; times are whole seconds, as stored. */
  datatype Report = Report(mode: Mode, source: Source, address: string, port: nat, revision: nat,
                           observedAt: Time, expiresAt: Option<Time>)

  datatype Reported = Reported(endpoint: EndpointId, report: Report)

  datatype RuntimeState = Serving | ProviderPaused | NotServing

  datatype Heartbeat = Heartbeat(generation: nat, agentVersion: string, xrayVersion: Option<string>,
      state: RuntimeState,
                                 progress: Progress, paused: bool, endpoints: seq<Reported>, telemetryCursor: nat)

  /** The node row with the columns only heartbeats use. */
  datatype Host = Host(node: Node, telemetryCursor: nat, generation: nat, last: Option<Heartbeat>,
      lastSeen: Option<Time>)

  datatype Candidate = Candidate(report: Report, lastGeneration: nat, verificationGeneration: nat, withdrawn: bool)

  datatype VerificationStatus = Unverified | Verified | FailedCheck | Withdrawn

  datatype Verification = Verification(status: VerificationStatus, lastSuccess: Option<Time>, expires: Option<Time>)

  datatype Phase = Tcp | Protocol
  datatype AttemptStatus = Claimed | Succeeded | FailedProbe | Cancelled | Expired

  /** What a runner was given and must present again to complete the attempt. */
  datatype Ticket = Ticket(node: NodeId, endpoint: EndpointId, phase: Phase, generation: nat, address: string,
                           port: nat, revision: nat, claimExpires: Time, claim: nat)

  datatype Attempt = Attempt(ticket: Ticket, status: AttemptStatus, startedAt: Time, completedAt: Time)

  /** What a published revision means for probing: its public port and the canary in its snapshot. */
  datatype Snapshot = Snapshot(publicPort: Option<nat>, canary: nat)

  datatype Registry = Registry(
    hosts: map<NodeId, Host>,
    snapshots: map<RevisionKey, Snapshot>,
    canaries: map<NodeId, nat>,
    candidates: map<EndpointKey, Candidate>,
    verifications: map<EndpointKey, Verification>,
    attempts: seq<Attempt>)

  const EmptyRegistry: Registry := Registry(map[], map[], map[], map[], map[], [])

  datatype EndpointError =
    | InvalidHeartbeat | HostRevoked | StaleHeartbeat | HeartbeatConflict | ProgressMismatch(error: PlaneError)
    | RevisionMismatch | CandidateConflict | RegistryConstraint | ClaimConflict | ClaimUnknown

  const VERIFICATION_LIFETIME: nat := 15 * 60

  // ----- heartbeats -----

  predicate SameAddress(a: Report, b: Report) {
    a.mode == b.mode && a.address == b.address && a.port == b.port && a.revision == b.revision
  }

  /** White_Space of Unicode; the control characters among it are refused with all others. */
  predicate Whitespace(c: char) {
    || c == ' ' || c == '\U{A0}' || c == '\U{1680}' || '\U{2000}' <= c <= '\U{200A}'
    || c == '\U{2028}' || c == '\U{2029}' || c == '\U{202F}' || c == '\U{205F}' || c == '\U{3000}'
  }

  predicate ValidReport(r: Report) {
    && ShortText(r.address, 253)
    && (forall i :: 0 <= i < |r.address| ==> r.address[i] != '/' && !Whitespace(r.address[i]))
    && 0 < r.port < 0x1_0000
    && (r.mode == Relay <==> r.source == RelayLease)
    && (r.expiresAt.Some? ==> r.observedAt <= r.expiresAt.value)
    && (r.source != Manual ==> r.expiresAt.Some?)
  }

  predicate ValidHeartbeat(h: Heartbeat) {
    && h.generation > 0
    && ShortText(h.agentVersion, 64) && (h.xrayVersion.Some? ==> ShortText(h.xrayVersion.value, 64))
    && ConsistentProgress(h.progress)
    && (h.paused <==> h.state == ProviderPaused)
    && |h.endpoints| <= 16
    && (forall i, j :: 0 <= i < j < |h.endpoints| ==>
          h.endpoints[i].endpoint != h.endpoints[j].endpoint && !SameAddress(h.endpoints[i].report,
              h.endpoints[j].report))
    && (h.endpoints != [] ==> h.state == Serving)
    && (forall i :: 0 <= i < |h.endpoints| ==>
          && ValidReport(h.endpoints[i].report)
          && h.endpoints[i].report.revision == h.progress.applied && h.progress.applied > 0)
  }

  /** A direct candidate must use the public port of the revision it was applied with. */
  predicate PortMatches(t: Registry, n: NodeId, r: Report) {
    r.mode == Direct ==>
      RevisionKey(n, r.revision) in t.snapshots && t.snapshots[RevisionKey(n, r.revision)].publicPort == Some(r.port)
  }

  /** The partial unique index on current addresses. */
  predicate AddressHeld(t: Registry, n: NodeId, e: EndpointId, r: Report) {
    exists k :: k in t.candidates && k.node == n && k.endpoint != e && !t.candidates[k].withdrawn
        && SameAddress(t.candidates[k].report, r)
  }

  predicate Claims(a: Attempt, k: EndpointKey) {
    a.status == Claimed && a.ticket.node == k.node && a.ticket.endpoint == k.endpoint
  }

  function CancelClaims(attempts: seq<Attempt>, k: EndpointKey, now: Time): seq<Attempt> {
    seq(|attempts|, i requires 0 <= i < |attempts| =>
      if Claims(attempts[i], k) then attempts[i].(status := Cancelled, completedAt := now) else attempts[i])
  }

  /** CHECK(completed_at >= started_at) for the attempts to cancel. */
  predicate CanCancel(attempts: seq<Attempt>, k: EndpointKey, now: Time) {
    forall i :: 0 <= i < |attempts| && Claims(attempts[i], k) ==> attempts[i].startedAt <= now
  }

  /** Refresh a known candidate; a withdrawn one starts a new verification generation. */
  function RefreshCandidate(t: Registry, n: NodeId, e: Reported, generation: nat,
                            now: Time): Outcome<Registry, EndpointError> {
    var k := EndpointKey(n, e.endpoint);
    if !PortMatches(t, n, e.report) then Err(RevisionMismatch)
    else if k !in t.candidates then Ok(t)
    else if t.candidates[k].report != e.report then Err(CandidateConflict)
    else if !t.candidates[k].withdrawn then
      Ok(t.(candidates := t.candidates[k := t.candidates[k].(lastGeneration := generation)]))
    else if AddressHeld(t, n, e.endpoint, e.report) || !CanCancel(t.attempts, k, now) then Err(RegistryConstraint)
    else Ok(t.(candidates := t.candidates[k := Candidate(e.report, generation, generation, false)],
               attempts := CancelClaims(t.attempts, k, now),
               verifications := if k in t.verifications && t.verifications[k].status == Withdrawn
                                then t.verifications[k := Verification(Unverified, None, None)] else t.verifications))
  }

  function RefreshAll(t: Registry, n: NodeId, es: seq<Reported>, generation: nat,
                      now: Time): Outcome<Registry, EndpointError>
    decreases |es|
  {
    if es == [] then Ok(t)
    else
      var next :- RefreshCandidate(t, n, es[0], generation, now);
      RefreshAll(next, n, es[1..], generation, now)
  }

  /** Withdraw the node's candidates that this report left out, and their verifications. */
  function WithdrawMissing(t: Registry, n: NodeId, generation: nat): Registry {
    var candidates := map k | k in t.candidates ::
      if k.node == n && !t.candidates[k].withdrawn && t.candidates[k].lastGeneration < generation
      then t.candidates[k].(withdrawn := true) else t.candidates[k];
    t.(candidates := candidates,
       verifications := map k | k in t.verifications ::
         if k.node == n && k in candidates && candidates[k].withdrawn then t.verifications[k].(status := Withdrawn)
         else t.verifications[k])
  }

  /** CHECK(expires_at > observed_at): a lease that ends within its second cannot be stored. */
  predicate Lasting(r: Report) {
    r.expiresAt.Some? ==> r.observedAt < r.expiresAt.value
  }

  /** Insert a new candidate with a pending verification. */
  function InsertCandidate(t: Registry, n: NodeId, e: Reported, generation: nat): Outcome<Registry, EndpointError> {
    var k := EndpointKey(n, e.endpoint);
    if k in t.candidates || k in t.verifications || AddressHeld(t, n, e.endpoint, e.report)
       || RevisionKey(n, e.report.revision) !in t.snapshots || !Lasting(e.report)
    then Err(RegistryConstraint)
    else Ok(t.(candidates := t.candidates[k := Candidate(e.report, generation, generation, false)],
               verifications := t.verifications[k := Verification(Unverified, None, None)]))
  }

  function InsertAll(t: Registry, n: NodeId, es: seq<Reported>, generation: nat): Outcome<Registry, EndpointError>
    decreases |es|
  {
    if es == [] then Ok(t)
    else
      var next :- InsertCandidate(t, n, es[0], generation);
      InsertAll(next, n, es[1..], generation)
  }

  /** The reported endpoints the node has no candidate for yet. */
  function Unknown(t: Registry, n: NodeId, es: seq<Reported>): seq<Reported> {
    if es == [] then []
    else (if EndpointKey(n, es[0].endpoint) in t.candidates then [] else [es[0]]) + Unknown(t, n, es[1..])
  }

  function RecordCandidates(t: Registry, n: NodeId, es: seq<Reported>, generation: nat,
                            now: Time): Outcome<Registry, EndpointError> {
    var refreshed :- RefreshAll(t, n, es, generation, now);
    InsertAll(WithdrawMissing(refreshed, n, generation), n, Unknown(t, n, es), generation)
  }

  function Beat(t: Registry, n: NodeId, h: Heartbeat, now: Time): Outcome<Registry, EndpointError> {
    if !ValidHeartbeat(h) then Err(InvalidHeartbeat)
    else if n !in t.hosts || !Admitted(t.hosts[n].node.status) then Err(HostRevoked)
    else if h.generation < t.hosts[n].generation then Err(StaleHeartbeat)
    else if h.generation == t.hosts[n].generation
    then if t.hosts[n].last == Some(h) then Ok(t) else Err(HeartbeatConflict)
    else match HeartbeatProgress(t, n, h)
      case Some(e) => Err(ProgressMismatch(e))
      case None => RecordCandidates(Seen(t, n, h, now), n, h.endpoints, h.generation, now)
  }

  predicate Admitted(status: NodeStatus) {
    status == NodePending || status == NodeActive
  }

  /** Reported revisions must agree with the node row, and the telemetry cursor must not go back. */
  function HeartbeatProgress(t: Registry, n: NodeId, h: Heartbeat): Option<PlaneError>
    requires n in t.hosts
  {
    match ProgressError(t.hosts[n].node, RevisionKey(n, h.progress.desired) in t.snapshots, h.progress)
    case Some(e) => Some(e)
    case None => if h.telemetryCursor < t.hosts[n].telemetryCursor then Some(ProgressRegressed) else None
  }

  function Seen(t: Registry, n: NodeId, h: Heartbeat, now: Time): Registry
    requires n in t.hosts
  {
    t.(hosts := t.hosts[n := Host(t.hosts[n].node.(reported := h.progress.desired, agentVersion := h.agentVersion),
                                  h.telemetryCursor, h.generation, Some(h), Some(now))])
  }

  // ----- probe claims -----

  datatype Schedule = Schedule(lease: int, onlineWindow: int, successInterval: int, failureInterval: int)

  predicate OfEndpoint(a: Attempt, k: EndpointKey, phase: Phase) {
    a.ticket.node == k.node && a.ticket.endpoint == k.endpoint && a.ticket.phase == phase
  }

  /** The newest attempt of an endpoint and phase that satisfies the filter, if any. */
  function Newest(attempts: seq<Attempt>, matches: Attempt -> bool): Option<Attempt> {
    if attempts == [] then None
    else if matches(attempts[|attempts| - 1]) then Some(attempts[|attempts| - 1])
    else Newest(attempts[..|attempts| - 1], matches)
  }

  /** The host, its revision and the candidate agree, and nothing has expired by the deadline. */
  predicate Probeable(t: Registry, k: EndpointKey, deadline: Time) {
    && k in t.candidates && k in t.verifications && k.node in t.hosts
    && var c := t.candidates[k];
       var host := t.hosts[k.node];
       && host.node.status == NodeActive && host.last.Some? && host.last.value.state == Serving
          && !host.last.value.paused
       && host.node.applied == c.report.revision && host.generation == c.lastGeneration
       && RevisionKey(k.node, c.report.revision) in t.snapshots
       && PortMatches(t, k.node, c.report)
       && !c.withdrawn && t.verifications[k].status != Withdrawn
       && (c.report.expiresAt.Some? ==> c.report.expiresAt.value > deadline)
  }

  predicate Idle(t: Registry, n: NodeId) {
    forall i :: 0 <= i < |t.attempts| ==> !(t.attempts[i].status == Claimed && t.attempts[i].ticket.node == n)
  }

  /** Enough time has passed since the endpoint's latest attempt of this phase and generation. */
  predicate DueAgain(t: Registry, k: EndpointKey, phase: Phase, options: Schedule, now: Time)
    requires k in t.candidates
  {
    var generation := t.candidates[k].verificationGeneration;
    match Newest(t.attempts, (a: Attempt) => OfEndpoint(a, k, phase) && a.ticket.generation >= generation)
    case None => 0 <= now
    case Some(a) => a.startedAt + (if a.status == Succeeded then options.successInterval
        else options.failureInterval) <= now
  }

  /** A protocol probe needs a recent successful TCP probe and an active canary in the applied revision. */
  predicate ProtocolReady(t: Registry, k: EndpointKey, options: Schedule, now: Time)
    requires k in t.candidates
  {
    var c := t.candidates[k];
    && k.node in t.canaries && RevisionKey(k.node, c.report.revision) in t.snapshots
    && t.snapshots[RevisionKey(k.node, c.report.revision)].canary == t.canaries[k.node]
    && match Newest(t.attempts, (a: Attempt) => OfEndpoint(a, k, Tcp) && a.status == Succeeded
                                                && a.ticket.revision == c.report.revision
                                                   && a.ticket.address == c.report.address
                                                && a.ticket.port == c.report.port
                                                   && a.ticket.generation >= c.verificationGeneration)
       case None => false
       case Some(a) => a.completedAt >= now - options.successInterval
  }

  predicate Due(t: Registry, k: EndpointKey, phase: Phase, options: Schedule, now: Time) {
    && Probeable(t, k, if phase == Tcp then now + options.lease else now)
    && t.hosts[k.node].lastSeen.Some? && t.hosts[k.node].lastSeen.value >= now - options.onlineWindow
    && Idle(t, k.node)
    && DueAgain(t, k, phase, options, now)
    && (phase == Protocol ==> ProtocolReady(t, k, options, now))
  }

  function ExpireClaims(attempts: seq<Attempt>, now: Time): seq<Attempt> {
    seq(|attempts|, i requires 0 <= i < |attempts| =>
      if attempts[i].status == Claimed && attempts[i].ticket.claimExpires <= now
      then attempts[i].(status := Expired, completedAt := now) else attempts[i])
  }

  datatype Job = Job(attempt: nat, ticket: Ticket, canary: nat)

  datatype Granted = Granted(registry: Registry, job: Option<Job>)

  /** Expire stale claims, then lease the chosen due endpoint to a runner. */
  function Claim(t: Registry, phase: Phase, choice: Option<EndpointKey>, claim: nat, options: Schedule, now: Time)
    : Outcome<Granted, EndpointError>
  {
    var swept := t.(attempts := ExpireClaims(t.attempts, now));
    if choice.None? || !Due(swept, choice.value, phase, options, now) then Ok(Granted(swept, None))
    else if options.lease <= 0 then Err(RegistryConstraint)
    else
      var k := choice.value;
      var c := swept.candidates[k];
      var ticket := Ticket(k.node, k.endpoint, phase, c.lastGeneration, c.report.address, c.report.port,
                           c.report.revision, now + options.lease, claim);
      var canary := if k.node in swept.canaries then swept.canaries[k.node] else 0;
      Ok(Granted(swept.(attempts := swept.attempts + [Attempt(ticket, Claimed, now, now)]),
                 Some(Job(|swept.attempts|, ticket, canary))))
  }

  // ----- completion -----

  datatype Completion = Recorded | AlreadyRecorded | ClaimExpired | CandidateChanged

  datatype Completed = Completed(registry: Registry, completion: Completion)

  /** The candidate still is what the ticket was issued for. */
  predicate Current(t: Registry, g: Ticket, now: Time) {
    var k := EndpointKey(g.node, g.endpoint);
    && Probeable(t, k, now)
    && t.candidates[k].report.address == g.address && t.candidates[k].report.port == g.port
    && t.candidates[k].report.revision == g.revision && t.candidates[k].lastGeneration == g.generation
  }

  predicate CanaryCurrent(t: Registry, job: Job) {
    var r := RevisionKey(job.ticket.node, job.ticket.revision);
    && r in t.snapshots && job.ticket.node in t.canaries
    && t.snapshots[r].canary == t.canaries[job.ticket.node] == job.canary
  }

  function Finish(t: Registry, i: nat, status: AttemptStatus, now: Time): Registry
    requires i < |t.attempts|
  {
    t.(attempts := t.attempts[i := t.attempts[i].(status := status, completedAt := now)])
  }

  /** The verification row after a recorded protocol result. */
  function Verdict(v: Verification, connected: bool, now: Time): Outcome<Verification, EndpointError> {
    if connected then Ok(Verification(Verified, Some(now), Some(now + VERIFICATION_LIFETIME)))
    else if v.lastSuccess.Some? && now < v.lastSuccess.value then Err(RegistryConstraint)
    else Ok(Verification(FailedCheck, v.lastSuccess, None))
  }

  function Complete(t: Registry, job: Job, connected: bool, now: Time): Outcome<Completed, EndpointError> {
    if job.attempt >= |t.attempts| then Err(ClaimUnknown)
    else
      var a := t.attempts[job.attempt];
      var k := EndpointKey(job.ticket.node, job.ticket.endpoint);
      if a.ticket != job.ticket then Err(ClaimConflict)
      else if a.status != Claimed then Ok(Completed(t, AlreadyRecorded))
      else if now < a.startedAt then Err(RegistryConstraint)
      else if now >= a.ticket.claimExpires then Ok(Completed(Finish(t, job.attempt, Expired, now), ClaimExpired))
      else if !Current(t, job.ticket, now) || (job.ticket.phase == Protocol && !CanaryCurrent(t, job))
      then Ok(Completed(Finish(t, job.attempt, Cancelled, now), CandidateChanged))
      else
        var finished := Finish(t, job.attempt, if connected then Succeeded else FailedProbe, now);
        if job.ticket.phase == Tcp then Ok(Completed(finished, Recorded))
        else
          var verdict :- Verdict(t.verifications[k], connected, now);
          Ok(Completed(finished.(verifications := t.verifications[k := verdict]), Recorded))
  }

  // ----- changes from the control plane -----

  function AddHost(t: Registry, n: NodeId, node: Node): Outcome<Registry, EndpointError> {
    if n in t.hosts then Err(RegistryConstraint)
    else Ok(t.(hosts := t.hosts[n := Host(node, 0, 0, None, None)]))
  }

  function SetHost(t: Registry, n: NodeId, node: Node): Outcome<Registry, EndpointError> {
    if n !in t.hosts then Err(HostRevoked)
    else Ok(t.(hosts := t.hosts[n := t.hosts[n].(node := node)]))
  }

  /** A new revision of the node snapshots its active canary. */
  function AddRevision(t: Registry, n: NodeId, revision: nat, publicPort: Option<nat>,
                       seed: nat): Outcome<Registry, EndpointError> {
    if n !in t.hosts || RevisionKey(n, revision) in t.snapshots then Err(RegistryConstraint)
    else
      var canary := if n in t.canaries then t.canaries[n] else seed;
      Ok(t.(canaries := t.canaries[n := canary],
            snapshots := t.snapshots[RevisionKey(n, revision) := Snapshot(publicPort, canary)]))
  }

  /** A new canary makes earlier verifications of the node worthless. */
  function RotateCanary(t: Registry, n: NodeId, canary: nat, revision: nat,
                        publicPort: Option<nat>): Outcome<Registry, EndpointError> {
    var reset := t.(canaries := t.canaries[n := canary],
                    verifications := map k | k in t.verifications ::
                      if k.node == n && t.verifications[k].status != Withdrawn then Verification(Unverified, None, None)
                      else t.verifications[k]);
    AddRevision(reset, n, revision, publicPort, canary)
  }

  // ----- readiness shown to the node -----

  datatype Readiness = ReadyVerified | Checking | PendingCheck | TcpReachable | TcpUnreachable

  function ReadinessOf(t: Registry, k: EndpointKey, now: Time): Readiness
    requires k in t.candidates && k in t.verifications
  {
    var v := t.verifications[k];
    var c := t.candidates[k];
    if v.status == Verified && v.expires.Some? && v.expires.value > now then ReadyVerified
    else match Newest(t.attempts, (a: Attempt) => OfEndpoint(a, k, Tcp))
      case None => PendingCheck
      case Some(a) =>
        if a.status == Claimed && a.ticket.generation == c.lastGeneration && a.ticket.claimExpires > now then Checking
        else if a.status == Succeeded && a.ticket.generation >= c.verificationGeneration then TcpReachable
        else if a.status == FailedProbe && a.ticket.generation >= c.verificationGeneration then TcpUnreachable
        else PendingCheck
  }

  // ----- runs -----

  datatype Step =
    | DoAddHost(node: NodeId, row: Node)
    | DoSetHost(node: NodeId, row: Node)
    | DoAddRevision(node: NodeId, revision: nat, publicPort: Option<nat>, seed: nat)
    | DoRotateCanary(node: NodeId, canary: nat, revision: nat, publicPort: Option<nat>)
    | DoBeat(node: NodeId, heartbeat: Heartbeat, now: Time)
    | DoClaim(phase: Phase, choice: Option<EndpointKey>, claim: nat, options: Schedule, now: Time)
    | DoComplete(job: Job, connected: bool, now: Time)

  function Outcomes(t: Registry, step: Step): Outcome<Registry, EndpointError> {
    match step
    case DoAddHost(n, row) => AddHost(t, n, row)
    case DoSetHost(n, row) => SetHost(t, n, row)
    case DoAddRevision(n, revision, publicPort, seed) => AddRevision(t, n, revision, publicPort, seed)
    case DoRotateCanary(n, canary, revision, publicPort) => RotateCanary(t, n, canary, revision, publicPort)
    case DoBeat(n, h, now) => Beat(t, n, h, now)
    case DoClaim(phase, choice, claim, options, now) =>
      var granted :- Claim(t, phase, choice, claim, options, now);
      Ok(granted.registry)
    case DoComplete(job, connected, now) =>
      var completed :- Complete(t, job, connected, now);
      Ok(completed.registry)
  }

  function After(t: Registry, step: Step): Registry {
    match Outcomes(t, step)
    case Ok(q) => q
    case Err(_) => t
  }

  function Run(t: Registry, steps: seq<Step>): Registry
    decreases |steps|
  {
    if steps == [] then t else Run(After(t, steps[0]), steps[1..])
  }
}
