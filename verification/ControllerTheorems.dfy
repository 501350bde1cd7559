/** What holds across the groups of tables in every reachable state of the whole controller. */
module ControllerTheorems {
  import opened Domain
  import opened Controllers
  import DesiredState
  import Plane
  import RevisionLog
  import Publication
  import Accounts
  import Operator
  import ControlRuns
  import ControlTheorems
  import NewestRevisions
  import AccountSides
  import Sessions
  import SessionChains
  import Rollups
  import Endpoints
  import Evidence
  import EndpointTheorems

  // ----- heartbeats -----

  /** Every reported endpoint the node has no candidate for has a lease that outlasts its second. */
  ghost predicate NewOnesLast(e: Endpoints.Registry, n: NodeId, h: Endpoints.Heartbeat) {
    forall i :: 0 <= i < |Endpoints.Unknown(e, n, h.endpoints)| ==>
          Endpoints.Lasting(Endpoints.Unknown(e, n, h.endpoints)[i].report)
  }

  /** In every reachable state a newer valid heartbeat of an admitted node is accepted exactly when the
      publication tables accept its progress, its telemetry cursor does not go back and its endpoints can
      be stored; the applied revision they name is always one of the node's. */
  lemma HeartbeatAcceptedExactly(steps: seq<Step>, n: NodeId, h: Endpoints.Heartbeat, now: Time)
    requires var c := Run(NewController, steps);
             && Endpoints.ValidHeartbeat(h) && n in c.endpoints.hosts && c.endpoints.hosts[n].generation < h.generation
             && Endpoints.Admitted(c.endpoints.hosts[n].node.status)
    ensures var c := Run(NewController, steps);
            Endpoints.Beat(c.endpoints, n, h, now).Ok? <==>
              && Plane.ReportProgress(c.plane, n, h.progress, h.agentVersion).Ok?
              && c.endpoints.hosts[n].telemetryCursor <= h.telemetryCursor
              && EndpointTheorems.AllAcceptable(c.endpoints, n, h.endpoints, now) && NewOnesLast(c.endpoints, n, h)
  {
    hide Run, Inv, Endpoints.Beat, EndpointTheorems.AllAcceptable, EndpointTheorems.ProgressAgrees,
         EndpointTheorems.Storable,
         Plane.ReportProgress, NewOnesLast, Endpoints.ValidHeartbeat;
    Reachable(steps);
    var c := Run(NewController, steps);
    LinkedOf(c);
    EndpointTheorems.HeartbeatAcceptedExactly(c.endpoints, n, h, now);
    ProgressIsReport(c.plane, c.endpoints, n, h);
    if EndpointTheorems.ProgressAgrees(c.endpoints, n, h) {
      StorableIsLasting(c.plane, c.endpoints, n, h);
    }
  }

  lemma LinkedOf(c: Controller)
    requires Inv(c)
    ensures Evidence.Inv(c.endpoints) && Linked(c.plane, c.endpoints) && Publication.Inv(c.plane)
  {
  }

  lemma ProgressIsReport(t: Plane.Tables, e: Endpoints.Registry, n: NodeId, h: Endpoints.Heartbeat)
    requires Linked(t, e) && n in e.hosts && Endpoints.ValidHeartbeat(h) && Endpoints.Admitted(e.hosts[n].node.status)
    ensures EndpointTheorems.ProgressAgrees(e, n, h) <==>
            Plane.ReportProgress(t, n, h.progress, h.agentVersion).Ok?
                && e.hosts[n].telemetryCursor <= h.telemetryCursor
  {
    hide Plane.Targeted, SnapshotsOf, CanariesOf, Endpoints.ValidReport, DesiredState.ShortText;
    TargetIsSnapshot(t, e, n, h.progress.desired);
    assert e.hosts[n].node == t.nodes[n];
  }

  lemma StorableIsLasting(t: Plane.Tables, e: Endpoints.Registry, n: NodeId, h: Endpoints.Heartbeat)
    requires Publication.Inv(t) && Linked(t, e) && n in e.hosts && Endpoints.ValidHeartbeat(h)
    requires EndpointTheorems.ProgressAgrees(e, n, h)
    ensures EndpointTheorems.Storable(e, n, Endpoints.Unknown(e, n, h.endpoints)) <==> NewOnesLast(e, n, h)
  {
    hide Publication.Inv, Plane.Targeted, Endpoints.ValidReport, Endpoints.Lasting, DesiredState.ShortText;
    var unknown := Endpoints.Unknown(e, n, h.endpoints);
    UnknownAreReported(e, n, h.endpoints);
    forall i | 0 <= i < |unknown| ensures Endpoints.RevisionKey(n, unknown[i].report.revision) in e.snapshots {
      assert unknown[i] in h.endpoints;
      var j :| 0 <= j < |h.endpoints| && h.endpoints[j] == unknown[i];
      AppliedIsTargeted(t, n);
      TargetIsSnapshot(t, e, n, t.nodes[n].applied);
    }
  }

  lemma {:induction false} UnknownAreReported(e: Endpoints.Registry, n: NodeId, es: seq<Endpoints.Reported>)
    ensures forall i :: 0 <= i < |Endpoints.Unknown(e, n, es)| ==> Endpoints.Unknown(e, n, es)[i] in es
  {
    if es != [] {
      UnknownAreReported(e, n, es[1..]);
      var rest := Endpoints.Unknown(e, n, es[1..]);
      forall i | 0 <= i < |Endpoints.Unknown(e, n, es)| ensures Endpoints.Unknown(e, n, es)[i] in es {
        var x := Endpoints.Unknown(e, n, es)[i];
        assert x == es[0] || x in rest;
      }
    }
  }

  lemma AppliedIsTargeted(t: Plane.Tables, n: NodeId)
    requires Publication.Inv(t) && n in t.nodes && t.nodes[n].applied != 0
    ensures Plane.Targeted(t, n, t.nodes[n].applied)
  {
    Operator.InvLog(t);
    hide Publication.Inv;
    assert RevisionLog.CursorsAgree(t, n);
  }

  // ----- locked out everywhere -----

  /** Every credential of the user in the node's newest revision has been revoked. */
  ghost predicate ShutOut(t: Plane.Tables, n: NodeId, u: UserId) {
    n in t.nodes && t.nodes[n].desired in t.revisions ==>
      forall x :: x in t.revisions[t.nodes[n].desired].members ==>
        x in t.credentials && (t.credentials[x].user == u ==> t.credentials[x].status == Plane.Revoked)
  }

  /** In every reachable state a user whose account is not active has no unrevoked credential in any node's
      newest revision, and none of the user's access tokens is accepted. */
  lemma InactiveIsLockedOut(steps: seq<Step>, u: UserId, n: NodeId, access: Sessions.Secret, now: Time)
    requires u in Run(NewController, steps).plane.accounts
    requires Run(NewController, steps).plane.accounts[u] != Plane.AccountActive
    ensures var c := Run(NewController, steps);
            && ShutOut(c.plane, n, u)
            && (Sessions.Authenticate(c.sessions, access, now).Ok? ==>
                   Sessions.Authenticate(c.sessions, access, now).value.user != u)
  {
    hide Run, Publication.Inv, SessionChains.Inv, Evidence.Inv, Rollups.Inv, Linked, Observed, ShutOut,
         NewestRevisions.Tracks;
    Reachable(steps);
    PolicyShutsOut(Run(NewController, steps).plane, n, u);
  }

  lemma PolicyShutsOut(t: Plane.Tables, n: NodeId, u: UserId)
    requires Publication.Inv(t) && NewestRevisions.Tracks(t) && u in t.accounts && t.accounts[u] != Plane.AccountActive
    ensures ShutOut(t, n, u)
  {
    hide Publication.Inv;
    ControlTheorems.InactiveIsNotServed(t, u, n);
    GaplessOf(t);
    if n in t.nodes && t.nodes[n].desired in t.revisions {
      assert NewestRevisions.Tracked(t, n);
    }
  }

  /** A committed change away from the active state ends every session of the user for good and leaves the
      user out of the newest revision of every node whose user set it changed. */
  lemma StatusChangeLocksOut(before: seq<Step>, u: UserId, requested: Plane.AccountStatus, ids: NodeId -> CredentialId,
                             seeds: NodeId -> DesiredState.DesiredUser, plane: Plane.Tables, s: SessionId,
                                 since: seq<Step>,
                             access: Sessions.Secret, now: Time, n: NodeId)
    requires requested != Plane.AccountActive && access.session == s
    requires var c := Run(NewController, before);
             && PlaneSide(c, ChangeStatus(u, requested), ids, seeds) == Ok(plane)
             && u in c.plane.accounts && c.plane.accounts[u] != requested && s in c.sessions.sessions
                && c.sessions.sessions[s].user == u
    ensures var c := Run(NewController, before);
            var q := Transact(c, ChangeStatus(u, requested), ids, seeds);
            && q.plane == plane
            && Sessions.Authenticate(Run(q, since).sessions, access, now).Err?
            && (n in c.plane.nodes && Plane.Compiled(plane, n) != Plane.Compiled(c.plane, n) ==>
                   NewestOmits(plane, n, u))
  {
    hide Run, Inv, Transact, PlaneSide, NewestOmits, Plane.Compiled, SessionChains.Grows, ControlRuns.Grows;
    Reachable(before);
    var c := Run(NewController, before);
    var q := Transact(c, ChangeStatus(u, requested), ids, seeds);
    CommittedStatus(c, u, requested, ids, seeds, plane, s, n);
    TransactKeeps(c, ChangeStatus(u, requested), ids, seeds);
    RunKeeps(q, since);
    RevokedStaysOut(q.sessions, Run(q, since).sessions, access, now);
  }

  lemma RevokedStaysOut(t: Sessions.Store, q: Sessions.Store, access: Sessions.Secret, now: Time)
    requires SessionChains.Grows(t, q) && access.session in t.sessions && t.sessions[access.session].revoked
    ensures Sessions.Authenticate(q, access, now).Err?
  {
    assert SessionChains.RowGrows(t.sessions[access.session], q.sessions[access.session]);
  }

  /** The commit itself. */
  lemma CommittedStatus(c: Controller, u: UserId, requested: Plane.AccountStatus, ids: NodeId -> CredentialId,
                        seeds: NodeId -> DesiredState.DesiredUser, plane: Plane.Tables, s: SessionId, n: NodeId)
    requires Inv(c) && requested != Plane.AccountActive
    requires PlaneSide(c, ChangeStatus(u, requested), ids, seeds) == Ok(plane) && u in c.plane.accounts
             && c.plane.accounts[u] != requested
    requires s in c.sessions.sessions && c.sessions.sessions[s].user == u
    ensures var q := Transact(c, ChangeStatus(u, requested), ids, seeds);
            && q.plane == plane && s in q.sessions.sessions && q.sessions.sessions[s].revoked
            && (n in c.plane.nodes && Plane.Compiled(plane, n) != Plane.Compiled(c.plane, n) ==>
                   NewestOmits(plane, n, u))
  {
    hide Publication.Inv, NewestRevisions.Tracks, SessionChains.Inv, Evidence.Inv, Rollups.Inv, Linked, Observed,
         Plane.SetStatus,
         Plane.Compiled, NewestOmits, SeenByEndpoints, SeenByTelemetry;
    TransactionAgrees(c, ChangeStatus(u, requested), ids, seeds, plane);
    EndedSession(c, u, requested, ids, seeds, s);
    if n in c.plane.nodes && Plane.Compiled(plane, n) != Plane.Compiled(c.plane, n) {
      OmittedAtCommit(c.plane, u, requested, ids, seeds, plane, n);
    }
  }

  lemma EndedSession(c: Controller, u: UserId, requested: Plane.AccountStatus, ids: NodeId -> CredentialId,
                     seeds: NodeId -> DesiredState.DesiredUser, s: SessionId)
    requires PlaneSide(c, ChangeStatus(u, requested), ids, seeds).Ok? && SessionSide(c, ChangeStatus(u, requested)).Ok?
    requires requested != Plane.AccountActive && Coherent(c.plane, c.sessions) && u in c.plane.accounts
             && c.plane.accounts[u] != requested
    requires s in c.sessions.sessions && c.sessions.sessions[s].user == u
    ensures var q := Transact(c, ChangeStatus(u, requested), ids, seeds);
            s in q.sessions.sessions && q.sessions.sessions[s].revoked
  {
    hide Plane.SetStatus;
  }

  /** The node's newest revision holds no credential of the user. */
  ghost predicate NewestOmits(t: Plane.Tables, n: NodeId, u: UserId) {
    && n in t.nodes && t.nodes[n].desired in t.revisions
    && forall x :: x in t.revisions[t.nodes[n].desired].members ==> x in t.credentials && t.credentials[x].user != u
  }

  lemma OmittedAtCommit(t: Plane.Tables, u: UserId, requested: Plane.AccountStatus, ids: NodeId -> CredentialId,
                        seeds: NodeId -> DesiredState.DesiredUser, q: Plane.Tables, n: NodeId)
    requires Publication.Inv(t) && Plane.SetStatus(t, u, requested, ids, seeds) == Ok(q)
             && requested != Plane.AccountActive
    requires n in t.nodes && Plane.Compiled(q, n) != Plane.Compiled(t, n)
    ensures NewestOmits(q, n, u)
  {
    hide Publication.Inv, Plane.SetStatus, ControlRuns.Grows, Plane.Compiled;
    AccountSides.StatusSetsAccount(t, u, requested, ids, seeds, q);
    ControlRuns.SetStatusStepKeeps(t, u, requested, ids, seeds, q);
    ControlTheorems.InactiveIsNotServed(q, u, n);
    NewestIsPolicy(t, q, n);
  }

  lemma NewestIsPolicy(t: Plane.Tables, q: Plane.Tables, n: NodeId)
    requires Publication.Inv(q) && Accounts.PolicyPublished(t, q) && n in t.nodes
             && Plane.Compiled(q, n) != Plane.Compiled(t, n)
    ensures n in q.nodes && q.nodes[n].desired in q.revisions && q.revisions[q.nodes[n].desired].members
            == Plane.Compiled(q, n)
    ensures Plane.Compiled(q, n) <= q.credentials.Keys
  {
    hide Publication.Inv, Plane.InPolicy, Accounts.KeepsConfiguration;
    assert n in q.nodes && t.last < q.nodes[n].desired;
    DesiredBelongs(q, n);
    assert Accounts.SnapshotsPolicy(q, q.nodes[n].desired);
  }

  lemma GaplessOf(t: Plane.Tables)
    requires Publication.Inv(t)
    ensures forall r :: r in t.revisions <==> 0 < r <= t.last
  {
  }

  lemma DesiredBelongs(t: Plane.Tables, n: NodeId)
    requires Publication.Inv(t) && n in t.nodes && t.nodes[n].desired != 0
    ensures t.nodes[n].desired in t.revisions && t.nodes[n].desired <= t.last
            && t.revisions[t.nodes[n].desired].node == n
  {
    hide Publication.Inv, RevisionLog.LogInv;
    GaplessOf(t);
    Operator.InvLog(t);
    Operator.LogDesired(t, n);
  }
}
