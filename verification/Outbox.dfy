/** No relay job is lost: over every run the state of a grant decides its jobs, and states only advance. */
module Outbox {
  import opened Domain
  import opened Relay

  // ----- invariants -----

  /** The jobs of a grant, by its state. */
  ghost predicate JobsOk(t: Relays, g: GrantId)
    requires g in t.grants
  {
    var p := JobKey(g, PublishRoute);
    var r := JobKey(g, RevokeRoute);
    && p in t.outbox
    && (t.grants[g].state == PendingGrant ==> !t.outbox[p].completed && r !in t.outbox)
    && (t.grants[g].state == Published ==> t.outbox[p].completed && r !in t.outbox)
    && (t.grants[g].state == Revoking ==> r in t.outbox && !t.outbox[r].completed)
    && (t.grants[g].state == RevokedGrant ==> r in t.outbox && t.outbox[r].completed)
  }

  /** A grant belongs to its node's route, and generations of a route are distinct. */
  ghost predicate RouteOk(t: Relays, g: GrantId)
    requires g in t.grants
  {
    && t.grants[g].node in t.routes && t.routes[t.grants[g].node] == t.grants[g].route
    && forall h ::
         h in t.grants && t.grants[h].route == t.grants[g].route && t.grants[h].generation == t.grants[g].generation ==>
           h == g
  }

  ghost predicate JobsKnown(t: Relays) {
    forall k :: k in t.outbox ==> k.grant in t.grants
  }

  ghost predicate Inv(t: Relays) {
    && (forall g :: g in t.grants ==> JobsOk(t, g))
    && (forall g :: g in t.grants ==> RouteOk(t, g))
    && JobsKnown(t)
  }

  function Rank(s: GrantState): nat {
    match s
    case PendingGrant => 0
    case Published => 1
    case Revoking => 2
    case RevokedGrant => 3
  }

  /** Grants keep their identity and their state only advances. */
  ghost predicate Advances(a: map<GrantId, Grant>, b: map<GrantId, Grant>) {
    forall g :: g in a ==> g in b && b[g] == a[g].(state := b[g].state) && Rank(a[g].state) <= Rank(b[g].state)
  }

  lemma AdvancesTransitive(a: map<GrantId, Grant>, b: map<GrantId, Grant>, c: map<GrantId, Grant>)
    requires Advances(a, b) && Advances(b, c)
    ensures Advances(a, c)
  {
  }

  // ----- revoking steps -----

  lemma StartRevokingRows(grants: map<GrantId, Grant>, chosen: set<GrantId>)
    ensures var after := StartRevoking(grants, chosen);
            && after.Keys == grants.Keys && Advances(grants, after)
            && (forall g :: g in grants ==>
                   after[g] == if g in chosen && Open(grants[g].state) then grants[g].(state := Revoking)
                 else grants[g])
  {
  }

  lemma EnqueueRows(outbox: map<JobKey, Job>, chosen: set<GrantId>, now: Time, k: JobKey)
    ensures var after := Enqueue(outbox, chosen, now);
            && (k in after <==> k in outbox || (k.action == RevokeRoute && k.grant in chosen))
            && (k in outbox ==> after[k] == outbox[k])
            && (k in after && k !in outbox ==> after[k] == Job(0, now, false))
  {
  }

  lemma RevokeSetKeepsJobs(t: Relays, chosen: set<GrantId>, queued: set<GrantId>, now: Time, g: GrantId)
    requires chosen <= queued && g in t.grants && JobsOk(t, g)
    ensures g in RevokeSet(t, chosen, queued, now).grants && JobsOk(RevokeSet(t, chosen, queued, now), g)
  {
  }

  /** Routes look only at identities. */
  lemma RoutesStay(t: Relays, q: Relays, g: GrantId)
    requires q.grants.Keys == t.grants.Keys && Advances(t.grants, q.grants) && g in t.grants && RouteOk(t, g)
    requires forall n :: n in t.routes ==> n in q.routes && q.routes[n] == t.routes[n]
    ensures RouteOk(q, g)
  {
  }

  lemma RevokeSetKeeps(t: Relays, chosen: set<GrantId>, queued: set<GrantId>, now: Time)
    requires Inv(t) && chosen <= queued
    ensures Inv(RevokeSet(t, chosen, queued, now)) && Advances(t.grants, RevokeSet(t, chosen, queued, now).grants)
  {
    var q := RevokeSet(t, chosen, queued, now);
    StartRevokingRows(t.grants, chosen);
    forall g | g in q.grants ensures JobsOk(q, g) && RouteOk(q, g) {
      RevokeSetKeepsJobs(t, chosen, queued, now, g);
      RoutesStay(t, q, g);
    }
    forall k | k in q.outbox ensures k.grant in q.grants {
      EnqueueRows(t.outbox, InState(q.grants, queued, Revoking), now, k);
    }
    hide JobsOk, RouteOk, Enqueue, StartRevoking;
  }

  /** Revoking one grant queues its job even when it was already revoking or revoked. */
  lemma RevokeGrantKeeps(t: Relays, g: GrantId, now: Time, q: Relays)
    requires Inv(t) && RevokeGrant(t, g, now) == Ok(q)
    ensures Inv(q) && Advances(t.grants, q.grants)
  {
    hide JobsOk, RouteOk, Enqueue, StartRevoking;
    StartRevokingRows(t.grants, {g});
    forall h | h in q.grants ensures JobsOk(q, h) && RouteOk(q, h) {
      RevokeGrantKeepsJobs(t, g, now, q, h);
      RoutesStay(t, q, h);
    }
    forall k | k in q.outbox ensures k.grant in q.grants {
      EnqueueRows(t.outbox, {g}, now, k);
    }
  }

  lemma RevokeGrantKeepsJobs(t: Relays, g: GrantId, now: Time, q: Relays, h: GrantId)
    requires g in t.grants && h in t.grants && JobsOk(t, h) && RevokeGrant(t, g, now) == Ok(q)
    ensures h in q.grants && JobsOk(q, h)
  {
  }

  // ----- one grant or one job -----

  /** Only the state of grant `g` and its own jobs differ. */
  ghost predicate TouchesOnly(t: Relays, q: Relays, g: GrantId) {
    && q.eligible == t.eligible && q.routes == t.routes
    && q.grants.Keys == t.grants.Keys && Advances(t.grants, q.grants)
    && (forall h :: h in t.grants && h != g ==> q.grants[h] == t.grants[h])
    && q.outbox.Keys == t.outbox.Keys
    && (forall k :: k in t.outbox && k.grant != g ==> q.outbox[k] == t.outbox[k])
  }

  lemma TouchesKeeps(t: Relays, q: Relays, g: GrantId)
    requires Inv(t) && TouchesOnly(t, q, g) && (g in t.grants ==> JobsOk(q, g))
    ensures Inv(q)
  {
    forall h | h in q.grants ensures JobsOk(q, h) && RouteOk(q, h) {
      assert JobsOk(t, h);
      RoutesStay(t, q, h);
    }
    hide RouteOk;
  }

  lemma MarkPublishedKeeps(t: Relays, g: GrantId, q: Relays)
    requires Inv(t) && MarkPublished(t, g) == Ok(q)
    ensures Inv(q) && Advances(t.grants, q.grants)
  {
    assert JobsOk(t, g);
    assert TouchesOnly(t, q, g) && JobsOk(q, g);
    TouchesKeeps(t, q, g);
  }

  lemma MarkRevokedKeeps(t: Relays, g: GrantId)
    requires Inv(t)
    ensures Inv(MarkRevoked(t, g)) && Advances(t.grants, MarkRevoked(t, g).grants)
  {
    var q := MarkRevoked(t, g);
    if g in t.grants {
      assert JobsOk(t, g);
      assert JobsOk(q, g);
    } else {
      assert JobKey(g, RevokeRoute) !in t.outbox;
    }
    assert TouchesOnly(t, q, g);
    TouchesKeeps(t, q, g);
  }

  lemma FailKeeps(t: Relays, k: JobKey, now: Time, q: Relays)
    requires Inv(t) && Fail(t, k, now) == Ok(q)
    ensures Inv(q) && Advances(t.grants, q.grants)
  {
  }

  // ----- new grants and routes -----

  lemma StoreKeeps(t: Relays, g: GrantId, d: Draft, now: Time, q: Relays)
    requires Inv(t) && Store(t, g, d, now) == Ok(q)
    ensures Inv(q) && Advances(t.grants, q.grants)
  {
    assert JobKey(g, RevokeRoute) !in t.outbox;
    forall h | h in q.grants ensures JobsOk(q, h) && RouteOk(q, h) {
      if h != g {
        assert JobsOk(t, h) && RouteOk(t, h);
      }
    }
  }

  lemma PrepareKeeps(t: Relays, n: NodeId, seed: RouteId, lo: nat, hi: nat, now: Time, out: Prepared)
    requires Inv(t) && Prepare(t, n, seed, lo, hi, now) == Ok(out)
    ensures Inv(out.relays) && out.relays.grants == t.grants
  {
  }

  lemma EligibleKeeps(t: Relays, n: NodeId, eligible: bool)
    requires Inv(t)
    ensures Inv(t.(eligible := t.eligible[n := eligible]))
  {
  }

  // ----- runs -----

  lemma SetStepsKeep(t: Relays, step: Step, q: Relays)
    requires Inv(t) && (step.DoExpire? || step.DoAcknowledge? || step.DoRevokeNode?) && Outcomes(t, step) == Ok(q)
    ensures Inv(q) && Advances(t.grants, q.grants)
  {
    hide Inv, RevokeSet, Advances;
    match step {
      case DoExpire(now) => RevokeSetKeeps(t, set g | g in t.grants && t.grants[g].expires <= now ::
          g, t.grants.Keys, now);
      case DoRevokeNode(n, now) =>
        var ours := set g | g in t.grants && t.grants[g].node == n :: g;
        RevokeSetKeeps(t, ours, ours, now);
      case DoAcknowledge(n, g, generation, now) =>
        RevokeSetKeeps(t, Superseded(t.grants, g), RouteGrants(t.grants, g), now);
    }
  }

  lemma AdvanceNothing(a: map<GrantId, Grant>)
    ensures Advances(a, a)
  {
  }

  lemma StepKeeps(t: Relays, step: Step)
    requires Inv(t)
    ensures Inv(After(t, step)) && Advances(t.grants, After(t, step).grants)
  {
    hide Inv, Advances, Prepare, Store, Expire, MarkPublished, MarkRevoked, Fail, AcknowledgeGrant, RevokeGrant,
         RevokeNode;
    AdvanceNothing(t.grants);
    match Outcomes(t, step) {
      case Err(_) =>
      case Ok(q) =>
        match step {
          case DoEligible(n, eligible) => EligibleKeeps(t, n, eligible);
          case DoPrepare(n, seed, lo, hi, now) => PrepareKeeps(t, n, seed, lo, hi, now,
              Prepare(t, n, seed, lo, hi, now).value);
          case DoStore(g, d, now) => StoreKeeps(t, g, d, now, q);
          case DoMarkPublished(g) => MarkPublishedKeeps(t, g, q);
          case DoMarkRevoked(g) => MarkRevokedKeeps(t, g);
          case DoFail(k, now) => FailKeeps(t, k, now, q);
          case DoRevokeGrant(g, now) => RevokeGrantKeeps(t, g, now, q);
          case _ => SetStepsKeep(t, step, q);
        }
    }
  }

  lemma {:induction false} RunKeeps(t: Relays, steps: seq<Step>)
    requires Inv(t)
    ensures Inv(Run(t, steps)) && Advances(t.grants, Run(t, steps).grants)
    decreases |steps|
  {
    hide Inv, After, Advances;
    if steps == [] {
      AdvanceNothing(t.grants);
    } else {
      StepKeeps(t, steps[0]);
      RunKeeps(After(t, steps[0]), steps[1..]);
      AdvancesTransitive(t.grants, After(t, steps[0]).grants, Run(t, steps).grants);
    }
  }

  lemma Reachable(steps: seq<Step>)
    ensures Inv(Run(EmptyRelays, steps))
  {
    RunKeeps(EmptyRelays, steps);
  }
}
