/** Main results about relay grants, over every run. */
module RelayTheorems {
  import opened Domain
  import opened Relay
  import opened Outbox

  // ----- no job is lost -----

  /** A grant is revoking exactly when it has an uncompleted revoke job, and every pending grant has an
      uncompleted publish job. */
  lemma NoJobIsLost(steps: seq<Step>, g: GrantId)
    requires g in Run(EmptyRelays, steps).grants
    ensures var t := Run(EmptyRelays, steps);
            && (t.grants[g].state == Revoking <==>
                   JobKey(g, RevokeRoute) in t.outbox && !t.outbox[JobKey(g, RevokeRoute)].completed)
            && (t.grants[g].state == PendingGrant ==>
                   JobKey(g, PublishRoute) in t.outbox && !t.outbox[JobKey(g, PublishRoute)].completed)
  {
    hide Run;
    Reachable(steps);
    assert JobsOk(Run(EmptyRelays, steps), g);
  }

  predicate NotBefore(t: Relays, k: JobKey, now: Time) {
    k in t.outbox && t.outbox[k].nextAttempt <= now
  }

  /** Such a job is due from its next attempt on, and nothing else of the grant is. */
  lemma OneDueJob(steps: seq<Step>, g: GrantId, now: Time)
    requires g in Run(EmptyRelays, steps).grants
    ensures var t := Run(EmptyRelays, steps);
            && !(Due(t, JobKey(g, PublishRoute), now) && Due(t, JobKey(g, RevokeRoute), now))
            && (t.grants[g].state == PendingGrant ==>
                  (Due(t, JobKey(g, PublishRoute), now) <==> NotBefore(t, JobKey(g, PublishRoute), now)))
            && (t.grants[g].state == Revoking ==>
                  (Due(t, JobKey(g, RevokeRoute), now) <==> NotBefore(t, JobKey(g, RevokeRoute), now)))
            && (t.grants[g].state == Published || t.grants[g].state == RevokedGrant ==>
                  forall k: JobKey :: k.grant == g ==> !Due(t, k, now))
  {
    hide Run;
    Reachable(steps);
    assert JobsOk(Run(EmptyRelays, steps), g);
  }

  /** A failed attempt is retried after at most 256 seconds; the cap of 300 is never reached. */
  lemma BackoffBound(attempts: nat)
    ensures 1 <= Backoff(attempts) <= 256
    ensures Backoff(attempts) <= Backoff(attempts + 1)
  {
    PowerValues();
  }

  lemma PowerValues()
    ensures Power(0) == 1 && Power(1) == 2 && Power(2) == 4 && Power(3) == 8 && Power(4) == 16
    ensures Power(5) == 32 && Power(6) == 64 && Power(7) == 128 && Power(8) == 256
  {
  }

  // ----- states only advance -----

  /** A grant keeps its identity, and its state never goes back on any later run. */
  lemma GrantsOnlyAdvance(t: Relays, more: seq<Step>, g: GrantId)
    requires Inv(t) && g in t.grants
    ensures var q := Run(t, more);
            g in q.grants && q.grants[g] == t.grants[g].(state := q.grants[g].state)
                && Rank(t.grants[g].state) <= Rank(q.grants[g].state)
  {
    hide Run, Inv;
    RunKeeps(t, more);
  }

  // ----- acknowledgement -----

  /** Published grants of a route. */
  ghost function Serving(t: Relays, n: NodeId, route: RouteId): set<GrantId> {
    set h | h in t.grants && t.grants[h].node == n && t.grants[h].route == route && t.grants[h].state == Published :: h
  }

  /** An acknowledged grant is its route's only published one afterwards; the older published ones are
      revoking with a job each, and no other grant changes. */
  lemma AcknowledgementMeaning(t: Relays, n: NodeId, g: GrantId, generation: nat, now: Time, q: Relays, h: GrantId)
    requires Inv(t) && AcknowledgeGrant(t, n, g, generation, now) == Ok(q)
    ensures g in q.grants && q.grants[g] == t.grants[g] && Serving(q, n, t.grants[g].route) == {g}
    ensures h in t.grants ==> h in q.grants
    ensures h in t.grants && SameRoute(t.grants[h], t.grants[g]) && t.grants[h].state == Published && h != g ==>
              q.grants[h].state == Revoking && JobKey(h, RevokeRoute) in q.outbox
                  && !q.outbox[JobKey(h, RevokeRoute)].completed
    ensures h in t.grants && !(SameRoute(t.grants[h], t.grants[g]) && t.grants[h].state == Published && h != g) ==>
              q.grants[h] == t.grants[h]
  {
    hide Inv, AcknowledgeGrant, JobsOk, RouteOk, Advances;
    AcknowledgedKeeps(t, n, g, generation, now, q);
    AcknowledgedRows(t, n, g, generation, now, q);
    SameGeneration(t, g);
    if h in t.grants {
      RevokingHasJob(q, h);
    }
    assert Serving(q, n, t.grants[g].route) == {g} by {
      forall x ensures x in Serving(q, n, t.grants[g].route) <==> x == g {
      }
    }
  }

  lemma AcknowledgedKeeps(t: Relays, n: NodeId, g: GrantId, generation: nat, now: Time, q: Relays)
    requires Inv(t) && AcknowledgeGrant(t, n, g, generation, now) == Ok(q)
    ensures Inv(q)
  {
    hide Inv, AcknowledgeGrant, Advances;
    SetStepsKeep(t, DoAcknowledge(n, g, generation, now), q);
  }

  lemma RevokingHasJob(t: Relays, g: GrantId)
    requires Inv(t) && g in t.grants
    ensures t.grants[g].state == Revoking ==>
              JobKey(g, RevokeRoute) in t.outbox && !t.outbox[JobKey(g, RevokeRoute)].completed
  {
  }

  lemma SameGeneration(t: Relays, g: GrantId)
    requires Inv(t) && g in t.grants
    ensures forall h :: h in RouteGrants(t.grants, g) && t.grants[h].generation == t.grants[g].generation ==> h == g
  {
  }

  lemma AcknowledgedRows(t: Relays, n: NodeId, g: GrantId, generation: nat, now: Time, q: Relays)
    requires AcknowledgeGrant(t, n, g, generation, now) == Ok(q)
    ensures q.grants.Keys == t.grants.Keys && g in t.grants && t.grants[g].node == n
    ensures t.grants[g].state == Published && t.grants[g].generation == generation && t.grants[g].expires > now
    ensures forall h :: h in t.grants ==>
              q.grants[h] == if SameRoute(t.grants[h], t.grants[g]) && t.grants[h].state == Published
                  && t.grants[h].generation < generation
                             then t.grants[h].(state := Revoking) else t.grants[h]
    ensures forall h :: h in t.grants && SameRoute(t.grants[h], t.grants[g]) && t.grants[h].state == Published ==>
              t.grants[h].generation <= generation
  {
  }

  /** Repeating an acknowledgement before the grant expires changes nothing. */
  lemma AcknowledgementIdempotent(t: Relays, n: NodeId, g: GrantId, generation: nat, now: Time, q: Relays, later: Time)
    requires Inv(t) && AcknowledgeGrant(t, n, g, generation, now) == Ok(q) && later < t.grants[g].expires
    ensures AcknowledgeGrant(q, n, g, generation, later) == Ok(q)
  {
    hide Inv, RevokeSet;
    AcknowledgedKeeps(t, n, g, generation, now, q);
    AcknowledgedRows(t, n, g, generation, now, q);
    NoOlder(t, n, g, generation, q, later);
    NothingToRevoke(q, RouteGrants(q.grants, g), later);
  }

  lemma NoOlder(t: Relays, n: NodeId, g: GrantId, generation: nat, q: Relays, later: Time)
    requires q.grants.Keys == t.grants.Keys && g in t.grants && t.grants[g].node == n
    requires t.grants[g].state == Published && t.grants[g].generation == generation && later < t.grants[g].expires
    requires forall h :: h in t.grants ==>
               q.grants[h] == if SameRoute(t.grants[h], t.grants[g]) && t.grants[h].state == Published
                   && t.grants[h].generation < generation
                              then t.grants[h].(state := Revoking) else t.grants[h]
    requires forall h :: h in t.grants && SameRoute(t.grants[h], t.grants[g]) && t.grants[h].state == Published ==>
               t.grants[h].generation <= generation
    ensures Acknowledgeable(q, n, g, generation, later) && Superseded(q.grants, g) == {}
  {
  }

  lemma NothingToRevoke(t: Relays, queued: set<GrantId>, now: Time)
    requires Inv(t)
    ensures RevokeSet(t, {}, queued, now) == t
  {
    assert StartRevoking(t.grants, {}) == t.grants;
    forall g | g in InState(t.grants, queued, Revoking) ensures JobKey(g, RevokeRoute) in t.outbox {
      assert JobsOk(t, g);
    }
    assert Enqueue(t.outbox, InState(t.grants, queued, Revoking), now) == t.outbox;
  }

  /** The acknowledged generation can go back.  After grant h was acknowledged, an older grant of its route
      is acknowledged on some later run exactly when it was still pending then; and whenever it is, h is no
      longer published. */
  lemma OlderComesBackExactlyIfPending(t: Relays, n: NodeId, h: GrantId, generation: nat, now: Time, q: Relays,
                                       g: GrantId)
    requires Inv(t) && AcknowledgeGrant(t, n, h, generation, now) == Ok(q)
    requires g in t.grants && SameRoute(t.grants[g], t.grants[h]) && t.grants[g].generation < generation
    ensures g in q.grants && h in q.grants
    ensures (exists more, later :: Acknowledgeable(Run(q, more), n, g, t.grants[g].generation, later)) <==>
            t.grants[g].state == PendingGrant
    ensures forall more, later :: Acknowledgeable(Run(q, more), n, g, t.grants[g].generation, later) ==>
              h in Run(q, more).grants && Run(q, more).grants[h].state != Published
  {
    hide Inv, Run, AcknowledgeGrant, Acknowledgeable, Serving;
    AcknowledgementMeaning(t, n, h, generation, now, q, g);
    AcknowledgedKeeps(t, n, h, generation, now, q);
    AcknowledgedRows(t, n, h, generation, now, q);
    forall more, later | Acknowledgeable(Run(q, more), n, g, t.grants[g].generation, later)
      ensures t.grants[g].state == PendingGrant
      ensures h in Run(q, more).grants && Run(q, more).grants[h].state != Published
    {
      GrantsOnlyAdvance(q, more, g);
      GrantsOnlyAdvance(q, more, h);
      AcknowledgeableIsNewest(Run(q, more), n, g, t.grants[g].generation, later, h);
    }
    if t.grants[g].state == PendingGrant {
      var more, later := PendingComesBack(q, n, g, h);
      assert Acknowledgeable(Run(q, more), n, g, t.grants[g].generation, later);
    }
  }

  lemma AcknowledgeableIsNewest(t: Relays, n: NodeId, g: GrantId, generation: nat, now: Time, h: GrantId)
    requires Acknowledgeable(t, n, g, generation, now) && h in t.grants
    ensures g in t.grants && t.grants[g].state == Published
    ensures SameRoute(t.grants[h], t.grants[g]) && t.grants[h].generation > generation ==>
              t.grants[h].state != Published
  {
  }

  /** Publish the pending grant, then revoke the acknowledged one: nothing newer is published any more. */
  lemma PendingComesBack(q: Relays, n: NodeId, g: GrantId, h: GrantId) returns (more: seq<Step>, later: Time)
    requires g in q.grants && q.grants[g].state == PendingGrant && q.grants[g].node == n
    requires h in q.grants && SameRoute(q.grants[h], q.grants[g]) && Serving(q, n, q.grants[h].route) == {h}
    ensures Acknowledgeable(Run(q, more), n, g, q.grants[g].generation, later)
  {
    later := q.grants[g].expires - 1;
    var publish, revoke := DoMarkPublished(g), DoRevokeGrant(h, later);
    more := [publish, revoke];
    var m := After(q, publish);
    var z := After(m, revoke);
    assert more[1..] == [revoke] && [revoke][1..] == [];
    assert Run(q, more) == Run(m, [revoke]) == Run(z, []) == z;
    forall x | x in z.grants && SameRoute(z.grants[x], z.grants[g]) && z.grants[x].state == Published ensures x == g {
    }
  }

  // ----- overlap and rotation -----

  /** Storing and publishing the next generation leaves every published grant of the route serving. */
  lemma RotationOverlaps(t: Relays, g: GrantId, d: Draft, now: Time, m: Relays, q: Relays, h: GrantId)
    requires Store(t, g, d, now) == Ok(m) && MarkPublished(m, g) == Ok(q)
    requires h in t.grants && t.grants[h].state == Published
    ensures h in q.grants && q.grants[h] == t.grants[h]
    ensures g in q.grants && q.grants[g].state == Published && q.grants[g].generation == d.generation
  {
  }

  /** A prepared grant uses a port no unrevoked grant uses, and a generation above all of its route. */
  lemma PreparedIsFresh(t: Relays, n: NodeId, seed: RouteId, lo: nat, hi: nat, now: Time, out: Prepared)
    requires Inv(t) && Prepare(t, n, seed, lo, hi, now) == Ok(out)
    ensures !PortUsed(t, out.draft.port) && lo <= out.draft.port <= hi
    ensures forall g :: g in t.grants && t.grants[g].route == out.draft.route ==>
              t.grants[g].generation < out.draft.generation
    ensures forall p :: lo <= p < out.draft.port ==> PortUsed(t, p)
  {
    FreePortIsLowest(t, lo, hi);
    forall g | g in t.grants && t.grants[g].route == out.draft.route
      ensures t.grants[g].generation < out.draft.generation {
      assert t.grants[g].generation in Generations(t, out.draft.route);
    }
    hide FreePort, Inv;
  }

  lemma {:induction false} FreePortIsLowest(t: Relays, lo: nat, hi: nat)
    ensures match FreePort(t, lo, hi)
            case None => forall p :: lo <= p <= hi ==> PortUsed(t, p)
            case Some(port) => lo <= port <= hi && !PortUsed(t, port) && forall p :: lo <= p < port ==> PortUsed(t, p)
    decreases hi + 1 - lo
  {
    hide PortUsed;
    if lo <= hi && PortUsed(t, lo) {
      FreePortIsLowest(t, lo + 1, hi);
    }
  }

  /** Stored right away under a new grant identifier, a prepared grant is accepted. */
  lemma PrepareThenStore(t: Relays, n: NodeId, seed: RouteId, lo: nat, hi: nat, now: Time, out: Prepared, g: GrantId)
    requires Inv(t) && Prepare(t, n, seed, lo, hi, now) == Ok(out) && g !in t.grants && 1 <= lo && hi <= 65535
    ensures Store(out.relays, g, out.draft, now).Ok?
  {
    PreparedIsFresh(t, n, seed, lo, hi, now, out);
    hide FreePort;
    assert !GenerationTaken(out.relays, out.draft.route, out.draft.generation);
    assert JobKey(g, PublishRoute) !in out.relays.outbox;
  }

  /** A lifecycle action on the node leaves none of its grants open. */
  lemma NodeActionClosesGrants(t: Relays, n: NodeId, now: Time, g: GrantId)
    requires g in t.grants
    ensures g in RevokeNode(t, n, now).grants
    ensures t.grants[g].node == n ==> !Open(RevokeNode(t, n, now).grants[g].state)
    ensures t.grants[g].node != n ==> RevokeNode(t, n, now).grants[g] == t.grants[g]
  {
  }

  /** After an expiry pass no open grant has expired, and unexpired grants are untouched. */
  lemma ExpiryClosesExpired(t: Relays, now: Time, g: GrantId)
    requires g in t.grants
    ensures g in Expire(t, now).grants
    ensures t.grants[g].expires <= now ==> !Open(Expire(t, now).grants[g].state)
    ensures t.grants[g].expires > now || !Open(t.grants[g].state) ==> Expire(t, now).grants[g] == t.grants[g]
  {
  }
}
