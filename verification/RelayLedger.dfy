/** The relay tables as the server changes them, including the port search of a new grant. */
module RelayLedger {
  import opened Domain
  import opened Relay
  import opened Outbox

  datatype Answer = Accepted

  type Reply = Outcome<Answer, RelayError>

  /** The same error and nothing changed, or the same tables. */
  ghost predicate Committed(spec: Outcome<Relays, RelayError>, before: Relays, after: Relays, r: Reply) {
    match spec
    case Ok(t) => r == Ok(Accepted) && after == t
    case Err(e) => r == Err(e) && after == before
  }

  class RelayLedger {
    var eligible: map<NodeId, bool>
    var routes: map<NodeId, RouteId>
    var grants: map<GrantId, Grant>
    var outbox: map<JobKey, Job>

    function View(): Relays
      reads this
    {
      Relays(eligible, routes, grants, outbox)
    }

    ghost predicate Valid()
      reads this
    {
      Inv(View())
    }

    constructor ()
      ensures Valid() && View() == EmptyRelays
    {
      eligible, routes, grants, outbox := map[], map[], map[], map[];
    }

    /** Try the ports of the range in order. */
    method FindPort(lo: nat, hi: nat) returns (r: Option<nat>)
      ensures r == FreePort(View(), lo, hi)
    {
      hide PortUsed;
      var port := lo;
      while port <= hi
        invariant FreePort(View(), lo, hi) == FreePort(View(), port, hi)
        decreases hi + 1 - port
      {
        if !PortUsed(View(), port) {
          return Some(port);
        }
        port := port + 1;
      }
      return None;
    }

    /** Route, next generation and free port for a new grant; only the route is stored. */
    method PrepareGrant(n: NodeId, seed: RouteId, lo: nat, hi: nat, now: Time) returns (r: Outcome<Draft, RelayError>)
      requires Valid()
      modifies this`routes
      ensures Valid()
      ensures var spec := Prepare(old(View()), n, seed, lo, hi, now);
              match spec
              case Ok(out) => r.Ok? && out == Prepared(View(), r.value)
              case Err(e) => r == Err(e) && View() == old(View())
    {
      hide Inv, FreePort;
      var before := routes;
      ghost var t := View();
      if n !in eligible {
        return Err(UnknownRelayNode);
      }
      if !eligible[n] {
        return Err(NotEligible);
      }
      if n !in routes {
        if exists m :: m in routes && routes[m] == seed {
          assert seed in routes.Values;
          return Err(RelayConstraint);
        }
        assert seed !in routes.Values;
        routes := routes[n := seed];
      }
      assert routes == before[n := routes[n]];
      var route := routes[n];
      var newest := NewestGeneration(route);
      var port := FindPort(lo, hi);
      SamePorts(t, View(), lo, hi, route);
      if newest + 1 > MAX_I64 || port.None? {
        routes := before;
        return Err(if newest + 1 > MAX_I64 then GenerationOverflow else PortsExhausted);
      }
      var draft := Draft(n, route, newest + 1, port.value, now, now + GRANT_LIFETIME);
      PrepareKeeps(t, n, seed, lo, hi, now, Prepared(View(), draft));
      return Ok(draft);
    }

    method NewestGeneration(route: RouteId) returns (newest: nat)
      ensures newest == MaxOf(Generations(View(), route))
    {
      var all := set g | g in grants && grants[g].route == route :: grants[g].generation;
      assert all == Generations(View(), route);
      newest := 0;
      if all != {} {
        GreatestExists(all);
        newest :| newest in all && forall v :: v in all ==> v <= newest;
      }
    }

    method StorePendingGrant(g: GrantId, d: Draft, now: Time) returns (r: Reply)
      requires Valid()
      modifies this
      ensures Valid() && Committed(Store(old(View()), g, d, now), old(View()), View(), r)
    {
      hide Inv;
      ghost var t := View();
      if d.node !in routes || routes[d.node] != d.route {
        return Err(GrantMismatch);
      }
      if g in grants || GenerationTaken(View(), d.route, d.generation) || d.generation == 0 || d.expires <= d.issued
         || !(1 <= d.port <= 65535) || JobKey(g, PublishRoute) in outbox
      {
        return Err(RelayConstraint);
      }
      grants := grants[g := Grant(d.node, d.route, d.generation, d.port, PendingGrant, d.expires)];
      outbox := outbox[JobKey(g, PublishRoute) := Job(0, now, false)];
      StoreKeeps(t, g, d, now, View());
      return Ok(Accepted);
    }

    method MarkGrantPublished(g: GrantId) returns (r: Reply)
      requires Valid()
      modifies this
      ensures Valid() && Committed(MarkPublished(old(View()), g), old(View()), View(), r)
    {
      hide Inv;
      ghost var t := View();
      if g !in grants || grants[g].state != PendingGrant {
        return Err(NotPending);
      }
      grants := grants[g := grants[g].(state := Published)];
      if JobKey(g, PublishRoute) in outbox {
        outbox := outbox[JobKey(g, PublishRoute) := outbox[JobKey(g, PublishRoute)].(completed := true)];
      }
      MarkPublishedKeeps(t, g, View());
      return Ok(Accepted);
    }

    /** Accept the node's acknowledgement and revoke the generations it replaces. */
    method AcknowledgeAssignment(n: NodeId, g: GrantId, generation: nat, now: Time) returns (r: Reply)
      requires Valid()
      modifies this
      ensures Valid() && Committed(AcknowledgeGrant(old(View()), n, g, generation, now), old(View()), View(), r)
    {
      hide Inv, StartRevoking, Enqueue, InState;
      ghost var t := View();
      if !Acknowledgeable(View(), n, g, generation, now) {
        return Err(AcknowledgementConflict);
      }
      var route, older := RouteGrants(grants, g), Superseded(grants, g);
      grants := StartRevoking(grants, older);
      outbox := Enqueue(outbox, InState(grants, route, Revoking), now);
      SetStepsKeep(t, DoAcknowledge(n, g, generation, now), View());
      return Ok(Accepted);
    }

    method ExpireGrants(now: Time)
      requires Valid()
      modifies this
      ensures Valid() && View() == Expire(old(View()), now)
    {
      hide Inv, StartRevoking, Enqueue, InState;
      ghost var t := View();
      grants := StartRevoking(grants, set g | g in grants && grants[g].expires <= now :: g);
      AfterStart(t.grants, set g | g in t.grants && t.grants[g].expires <= now :: g);
      outbox := Enqueue(outbox, InState(grants, grants.Keys, Revoking), now);
      SetStepsKeep(t, DoExpire(now), View());
    }
  }

  lemma AfterStart(grants: map<GrantId, Grant>, chosen: set<GrantId>)
    ensures StartRevoking(grants, chosen).Keys == grants.Keys
  {
  }

  /** The port search and the generations look only at the grants. */
  lemma {:induction false} SamePorts(t: Relays, q: Relays, lo: nat, hi: nat, route: RouteId)
    requires q.grants == t.grants
    ensures FreePort(q, lo, hi) == FreePort(t, lo, hi) && Generations(q, route) == Generations(t, route)
    decreases hi + 1 - lo
  {
    assert PortUsed(q, lo) <==> PortUsed(t, lo);
    hide PortUsed;
    if lo <= hi {
      SamePorts(t, q, lo + 1, hi, route);
    }
  }
}
