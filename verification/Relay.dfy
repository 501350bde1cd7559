/** Relay grants and their outbox: a route's grants rotate through generations with overlap, and every
    publish or revoke the relay has to learn about is a job that is retried until completed. */
module Relay {
  import opened Domain

  type RouteId = nat
  type GrantId = nat

  datatype GrantState = PendingGrant | Published | Revoking | RevokedGrant

  datatype Grant = Grant(node: NodeId, route: RouteId, generation: nat, port: nat, state: GrantState, expires: Time)

  datatype Action = PublishRoute | RevokeRoute
  datatype JobKey = JobKey(grant: GrantId, action: Action)
  datatype Job = Job(attempts: nat, nextAttempt: Time, completed: bool)

  datatype Relays = Relays(
    eligible: map<NodeId, bool>,
    routes: map<NodeId, RouteId>,
    grants: map<GrantId, Grant>,
    outbox: map<JobKey, Job>)

  const EmptyRelays: Relays := Relays(map[], map[], map[], map[])

  const GRANT_LIFETIME: nat := 24 * 60 * 60

  datatype RelayError =
    | UnknownRelayNode | NotEligible | PortsExhausted | GenerationOverflow | GrantMismatch | RelayConstraint
    | NotPending | AcknowledgementConflict | UnknownGrant | UnknownJob

  // ----- preparing a grant -----

  predicate PortUsed(t: Relays, port: nat) {
    exists g :: g in t.grants && t.grants[g].port == port && t.grants[g].state != RevokedGrant
  }

  /** The lowest free port of the range, if any. */
  function FreePort(t: Relays, lo: nat, hi: nat): Option<nat>
    decreases hi + 1 - lo
  {
    if lo > hi then None
    else if !PortUsed(t, lo) then Some(lo)
    else FreePort(t, lo + 1, hi)
  }

  ghost function Generations(t: Relays, route: RouteId): set<nat> {
    set g | g in t.grants && t.grants[g].route == route :: t.grants[g].generation
  }

  datatype Draft = Draft(node: NodeId, route: RouteId, generation: nat, port: nat, issued: Time, expires: Time)

  datatype Prepared = Prepared(relays: Relays, draft: Draft)

  /** Find or create the node's route, take the next generation and a free port. */
  ghost function Prepare(t: Relays, n: NodeId, seed: RouteId, lo: nat, hi: nat,
                         now: Time): Outcome<Prepared, RelayError> {
    if n !in t.eligible then Err(UnknownRelayNode)
    else if !t.eligible[n] then Err(NotEligible)
    else if n !in t.routes && seed in t.routes.Values then Err(RelayConstraint)
    else
      var route := if n in t.routes then t.routes[n] else seed;
      var generation := MaxOf(Generations(t, route)) + 1;
      if generation > MAX_I64 then Err(GenerationOverflow)
      else match FreePort(t, lo, hi)
        case None => Err(PortsExhausted)
        case Some(port) =>
          Ok(Prepared(t.(routes := t.routes[n := route]), Draft(n, route, generation, port, now, now + GRANT_LIFETIME)))
  }

  predicate GenerationTaken(t: Relays, route: RouteId, generation: nat) {
    exists g :: g in t.grants && t.grants[g].route == route && t.grants[g].generation == generation
  }

  /** Store the signed grant as pending, together with its publish job. */
  function Store(t: Relays, g: GrantId, d: Draft, now: Time): Outcome<Relays, RelayError> {
    if d.node !in t.routes || t.routes[d.node] != d.route then Err(GrantMismatch)
    else if g in t.grants || GenerationTaken(t, d.route, d.generation) || d.generation == 0 || d.expires <= d.issued
         || !(1 <= d.port <= 65535) || JobKey(g, PublishRoute) in t.outbox
    then Err(RelayConstraint)
    else Ok(t.(grants := t.grants[g := Grant(d.node, d.route, d.generation, d.port, PendingGrant, d.expires)],
               outbox := t.outbox[JobKey(g, PublishRoute) := Job(0, now, false)]))
  }

  // ----- revoking -----

  predicate Open(s: GrantState) {
    s == PendingGrant || s == Published
  }

  /** Grants of the set that are pending or published start revoking. */
  function StartRevoking(grants: map<GrantId, Grant>, chosen: set<GrantId>): map<GrantId, Grant> {
    map g | g in grants :: if g in chosen && Open(grants[g].state) then grants[g].(state := Revoking) else grants[g]
  }

  function InState(grants: map<GrantId, Grant>, chosen: set<GrantId>, s: GrantState): set<GrantId> {
    set g | g in grants && g in chosen && grants[g].state == s :: g
  }

  /** Add a revoke job for every grant of the set that has none yet. */
  function Enqueue(outbox: map<JobKey, Job>, chosen: set<GrantId>, now: Time): map<JobKey, Job> {
    outbox + map g | g in chosen && JobKey(g, RevokeRoute) !in outbox :: JobKey(g, RevokeRoute) := Job(0, now, false)
  }

  /** Revoke the open grants of a set and queue a job for all of it that is revoking. */
  function RevokeSet(t: Relays, chosen: set<GrantId>, queued: set<GrantId>, now: Time): Relays {
    var grants := StartRevoking(t.grants, chosen);
    t.(grants := grants, outbox := Enqueue(t.outbox, InState(grants, queued, Revoking), now))
  }

  function Expire(t: Relays, now: Time): Relays {
    RevokeSet(t, set g | g in t.grants && t.grants[g].expires <= now :: g, t.grants.Keys, now)
  }

  /** A lifecycle action on a node revokes all its grants. */
  function RevokeNode(t: Relays, n: NodeId, now: Time): Relays {
    var ours := set g | g in t.grants && t.grants[g].node == n :: g;
    RevokeSet(t, ours, ours, now)
  }

  function RevokeGrant(t: Relays, g: GrantId, now: Time): Outcome<Relays, RelayError> {
    if g !in t.grants then Err(UnknownGrant)
    else Ok(t.(grants := StartRevoking(t.grants, {g}), outbox := Enqueue(t.outbox, {g}, now)))
  }

  // ----- the outbox worker -----

  predicate Due(t: Relays, k: JobKey, now: Time) {
    && k in t.outbox && !t.outbox[k].completed && t.outbox[k].nextAttempt <= now && k.grant in t.grants
    && t.grants[k.grant].state == if k.action == PublishRoute then PendingGrant else Revoking
  }

  function Done(outbox: map<JobKey, Job>, k: JobKey): map<JobKey, Job> {
    if k in outbox then outbox[k := outbox[k].(completed := true)] else outbox
  }

  function MarkPublished(t: Relays, g: GrantId): Outcome<Relays, RelayError> {
    if g !in t.grants || t.grants[g].state != PendingGrant then Err(NotPending)
    else Ok(t.(grants := t.grants[g := t.grants[g].(state := Published)],
        outbox := Done(t.outbox, JobKey(g, PublishRoute))))
  }

  function MarkRevoked(t: Relays, g: GrantId): Relays {
    t.(grants := if g in t.grants && t.grants[g].state == Revoking
                 then t.grants[g := t.grants[g].(state := RevokedGrant)] else t.grants,
       outbox := Done(t.outbox, JobKey(g, RevokeRoute)))
  }

  function Power(n: nat): nat {
    if n == 0 then 1 else 2 * Power(n - 1)
  }

  function Backoff(attempts: nat): nat {
    var delay := Power(if attempts < 8 then attempts else 8);
    if delay < 300 then delay else 300
  }

  function Fail(t: Relays, k: JobKey, now: Time): Outcome<Relays, RelayError> {
    if k !in t.outbox then Err(UnknownJob)
    else Ok(t.(outbox := t.outbox[k := t.outbox[k].(attempts := t.outbox[k].attempts + 1,
                                                    nextAttempt := now + Backoff(t.outbox[k].attempts))]))
  }

  // ----- acknowledgement -----

  predicate SameRoute(a: Grant, b: Grant) {
    a.node == b.node && a.route == b.route
  }

  /** The grant is published, unexpired, and no newer generation of its route is published. */
  predicate Acknowledgeable(t: Relays, n: NodeId, g: GrantId, generation: nat, now: Time) {
    && g in t.grants && t.grants[g].node == n && t.grants[g].generation == generation
    && t.grants[g].state == Published && t.grants[g].expires > now
    && forall h :: h in t.grants && SameRoute(t.grants[h], t.grants[g]) && t.grants[h].state == Published ==>
         t.grants[h].generation <= generation
  }

  function RouteGrants(grants: map<GrantId, Grant>, g: GrantId): set<GrantId>
    requires g in grants
  {
    set h | h in grants && SameRoute(grants[h], grants[g]) :: h
  }

  /** Published grants of the route with an older generation. */
  function Superseded(grants: map<GrantId, Grant>, g: GrantId): set<GrantId>
    requires g in grants
  {
    set h | h in grants && SameRoute(grants[h], grants[g]) && grants[h].generation < grants[g].generation
        && grants[h].state == Published :: h
  }

  /** The node runs on this grant: older published generations of the route are revoked. */
  function AcknowledgeGrant(t: Relays, n: NodeId, g: GrantId, generation: nat, now: Time): Outcome<Relays, RelayError> {
    if !Acknowledgeable(t, n, g, generation, now) then Err(AcknowledgementConflict)
    else
      Ok(RevokeSet(t, Superseded(t.grants, g), RouteGrants(t.grants, g), now))
  }

  // ----- runs -----

  datatype Step =
    | DoEligible(node: NodeId, eligible: bool)
    | DoPrepare(node: NodeId, seed: RouteId, lo: nat, hi: nat, now: Time)
    | DoStore(grant: GrantId, draft: Draft, now: Time)
    | DoExpire(now: Time)
    | DoMarkPublished(grant: GrantId)
    | DoMarkRevoked(grant: GrantId)
    | DoFail(key: JobKey, now: Time)
    | DoAcknowledge(node: NodeId, grant: GrantId, generation: nat, now: Time)
    | DoRevokeGrant(grant: GrantId, now: Time)
    | DoRevokeNode(node: NodeId, now: Time)

  ghost function Outcomes(t: Relays, step: Step): Outcome<Relays, RelayError> {
    match step
    case DoEligible(n, eligible) => Ok(t.(eligible := t.eligible[n := eligible]))
    case DoPrepare(n, seed, lo, hi, now) =>
      var prepared :- Prepare(t, n, seed, lo, hi, now);
      Ok(prepared.relays)
    case DoStore(g, d, now) => Store(t, g, d, now)
    case DoExpire(now) => Ok(Expire(t, now))
    case DoMarkPublished(g) => MarkPublished(t, g)
    case DoMarkRevoked(g) => Ok(MarkRevoked(t, g))
    case DoFail(k, now) => Fail(t, k, now)
    case DoAcknowledge(n, g, generation, now) => AcknowledgeGrant(t, n, g, generation, now)
    case DoRevokeGrant(g, now) => RevokeGrant(t, g, now)
    case DoRevokeNode(n, now) => Ok(RevokeNode(t, n, now))
  }

  ghost function After(t: Relays, step: Step): Relays {
    match Outcomes(t, step)
    case Ok(q) => q
    case Err(_) => t
  }

  ghost function Run(t: Relays, steps: seq<Step>): Relays
    decreases |steps|
  {
    if steps == [] then t else Run(After(t, steps[0]), steps[1..])
  }
}
