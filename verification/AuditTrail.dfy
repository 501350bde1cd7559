/** What a run of the whole controller can change without writing an audit row: the progress nodes report,
    and nothing else of accounts, credentials, revisions or sessions. */
module AuditTrail {
  import opened Domain
  import opened Controllers
  import Plane
  import DesiredState
  import Publication
  import RevisionLog
  import Operator
  import Nodes
  import ControlRuns
  import Sessions
  import SessionChains
  import Evidence
  import Endpoints
  import Rollups

  /** The row moved only in its reported, received and validated cursors and its agent version. */
  predicate SameButProgress(a: Plane.Node, b: Plane.Node) {
    b == a.(reported := b.reported, received := b.received, validated := b.validated, agentVersion := b.agentVersion)
  }

  ghost predicate OnlyProgress(t: Plane.Tables, q: Plane.Tables) {
    && q == t.(nodes := q.nodes, journal := q.journal) && q.nodes.Keys == t.nodes.Keys
    && (forall n :: n in t.nodes ==> SameButProgress(t.nodes[n], q.nodes[n]))
    && (forall k :: k in t.journal ==> k in q.journal && q.journal[k] == t.journal[k])
    && (forall k :: k in q.journal && k !in t.journal ==> k.state == Plane.Received || k.state == Plane.Validated)
  }

  /** Accounts, assignments, credentials, canaries, revisions, rollback answers, sessions, devices, logins
      and activations are the same. */
  ghost predicate Quiet(c: Controller, q: Controller) {
    OnlyProgress(c.plane, q.plane) && q.sessions == c.sessions
  }

  lemma OnlyProgressReflexive(t: Plane.Tables)
    ensures OnlyProgress(t, t)
  {
  }

  lemma OnlyProgressTransitive(t: Plane.Tables, m: Plane.Tables, q: Plane.Tables)
    requires OnlyProgress(t, m) && OnlyProgress(m, q)
    ensures OnlyProgress(t, q)
  {
    forall n | n in t.nodes ensures SameButProgress(t.nodes[n], q.nodes[n]) {
      assert SameButProgress(t.nodes[n], m.nodes[n]) && SameButProgress(m.nodes[n], q.nodes[n]);
    }
  }

  // ----- publication steps -----

  lemma PublishWrites(t: Plane.Tables, n: NodeId, configuration: DesiredState.Configuration,
                      seed: DesiredState.DesiredUser,
                      q: Plane.Tables)
    requires Plane.PublishCompiled(t, n, configuration, seed) == Ok(q)
    ensures t.last < q.last
  {
    hide Plane.Compiled, Plane.AcceptableUsers, DesiredState.ValidConfiguration, Plane.DuplicateUser;
  }

  lemma RecordIsQuiet(t: Plane.Tables, n: NodeId, revision: nat, r: Plane.RevisionResult, q: Plane.Tables)
    requires Publication.Inv(t) && Plane.RecordResult(t, n, revision, r) == Ok(q)
    requires q == t || r.state == Plane.Received || r.state == Plane.Validated
    ensures OnlyProgress(t, q)
  {
    hide Publication.Inv, RevisionLog.LogInv;
    if q == t {
      OnlyProgressReflexive(t);
    } else {
      RecordedJournal(t, n, revision, r, q);
      Operator.InvLog(t);
      ControlRuns.RecordAppends(t, n, revision, r, q);
      hide Plane.RecordResult;
      Nodes.RecordCases(t, n, revision, r, q);
    }
  }

  lemma RecordedJournal(t: Plane.Tables, n: NodeId, revision: nat, r: Plane.RevisionResult, q: Plane.Tables)
    requires Plane.RecordResult(t, n, revision, r) == Ok(q) && q != t
    ensures q.journal == t.journal[Plane.ResultKey(revision, r.state) := r]
  {
  }

  lemma ReportIsQuiet(t: Plane.Tables, n: NodeId, g: Plane.Progress, version: string, q: Plane.Tables)
    requires Plane.ReportProgress(t, n, g, version) == Ok(q)
    ensures OnlyProgress(t, q)
  {
    hide Plane.ProgressError, DesiredState.ShortText;
  }

  lemma RollbackWrites(t: Plane.Tables, key: Plane.RollbackKey, targets: seq<Plane.RollbackTarget>,
                       reason: Plane.RollbackReason,
                       seeds: NodeId -> DesiredState.DesiredUser, out: Plane.RolledOut)
    requires Plane.OperatorRollback(t, key, targets, reason, seeds) == Ok(out)
    ensures if key in t.replays then out.tables == t else 0 < |targets|
  {
    hide Plane.PublishTargets, Plane.PrepareAll;
  }

  /** A publication step that writes no audit row changes only progress. */
  lemma UnauditedIsQuiet(t: Plane.Tables, s: ControlRuns.Step, q: Plane.Tables)
    requires Publication.Inv(t) && ControlRuns.Commits(t, s) == Ok(q) && PlaneRows(t, s, q) == 0
    ensures OnlyProgress(t, q)
  {
    hide Publication.Inv, OnlyProgress, Plane.PublishCompiled, Plane.Reconcile, Plane.RotateCanary,
         Plane.OperatorRollback,
         Plane.RecordResult, Plane.ReportProgress, Plane.Enroll, Plane.Transition, Plane.ReplaceNodes, Plane.SetStatus,
         Plane.RotateAccount, Plane.CreateAccount;
    match s {
      case DoPublish(n, configuration, seed) =>
        PublishWrites(t, n, configuration, seed, q);
        assert false;
      case DoRollback(key, targets, reason, seeds) =>
        RollbackWrites(t, key, targets, reason, seeds, Plane.OperatorRollback(t, key, targets, reason, seeds).value);
        OnlyProgressReflexive(t);
      case DoReconcile(n, seed) => ReconcileWrites(t, n, seed, q);
      case DoRecord(n, revision, r) => RecordIsQuiet(t, n, revision, r, q);
      case DoReport(n, g, version) => ReportIsQuiet(t, n, g, version, q);
      case _ =>
    }
  }

  lemma ReconcileWrites(t: Plane.Tables, n: NodeId, seed: DesiredState.DesiredUser, q: Plane.Tables)
    requires Publication.Inv(t) && ControlRuns.Commits(t, ControlRuns.DoReconcile(n, seed)) == Ok(q)
    ensures PlaneRows(t, ControlRuns.DoReconcile(n, seed), q) > 0
  {
    hide Publication.Inv, Plane.Reconcile, Operator.Reconciles, Plane.PublishCompiled;
    Operator.ReconcileCases(t, n, seed, Plane.Reconcile(t, n, seed).value);
    if !Operator.Reconciles(t, n) {
      PublishWrites(t, n, t.revisions[t.nodes[n].desired].configuration, seed, q);
    }
  }

  // ----- the whole controller -----

  lemma OperateIsQuiet(c: Controller, s: ControlRuns.Step)
    requires Inv(c) && Alone(s) && Operate(c, s).audit == c.audit
    ensures Quiet(c, Operate(c, s))
  {
    hide PlaneInv, SessionChains.Inv, Evidence.Inv, Rollups.Inv, Coherent, Linked, Observed, PlaneRows,
         ControlRuns.Commits,
         SeenByEndpoints, SeenByTelemetry, OnlyProgress;
    PlaneOf(c);
    match ControlRuns.Commits(c.plane, s) {
      case Err(_) => OnlyProgressReflexive(c.plane);
      case Ok(q) => UnauditedIsQuiet(c.plane, s, q);
    }
  }

  lemma PlaneOf(c: Controller)
    requires Inv(c)
    ensures Publication.Inv(c.plane)
  {
  }

  lemma BeatIsQuiet(c: Controller, n: NodeId, h: Endpoints.Heartbeat, now: Time)
    requires Inv(c)
    ensures Quiet(c, Beat(c, n, h, now))
  {
    hide Inv, Endpoints.Beat, OnlyProgress, Plane.ReportProgress;
    OnlyProgressReflexive(c.plane);
    match Endpoints.Beat(c.endpoints, n, h, now) {
      case Err(_) =>
      case Ok(e) =>
        BeatIsReport(c, n, h, now, e);
        if e == c.endpoints {
          assert c.plane.nodes[n := c.plane.nodes[n]] == c.plane.nodes;
        } else {
          ReportIsQuiet(c.plane, n, h.progress, h.agentVersion, c.plane.(nodes := c.plane.nodes[n := e.hosts[n].node]));
        }
    }
  }

  /** A step that writes no audit row is quiet. */
  lemma StepIsQuiet(c: Controller, step: Step)
    requires Inv(c) && After(c, step).audit == c.audit
    ensures Quiet(c, After(c, step))
  {
    hide Inv, OnlyProgress, Operate, Beat, Sessions.After, PlaneSide, SessionSide, SeenByEndpoints, SeenByTelemetry;
    OnlyProgressReflexive(c.plane);
    match step {
      case PlaneStep(s) =>
        if Alone(s) {
          OperateIsQuiet(c, s);
        }
      case HeartbeatStep(n, h, now) => BeatIsQuiet(c, n, h, now);
      case SessionStep(s) =>
        if LeavesUsers(s) {
          UnauditedSession(c.sessions, s);
        }
      case _ =>
    }
  }

  lemma UnauditedSession(t: Sessions.Store, s: Sessions.Step)
    requires LeavesUsers(s) && SessionRows(t, s, Sessions.After(t, s)) == 0
    ensures Sessions.After(t, s) == t
  {
    hide Sessions.Login, Sessions.CreateActivation, Sessions.ConsumeActivation, Sessions.Refresh, Sessions.Logout;
  }

  /** So is a run that writes none. */
  lemma {:induction false} RunIsQuiet(c: Controller, steps: seq<Step>)
    requires Inv(c) && Run(c, steps).audit == c.audit
    ensures Quiet(c, Run(c, steps))
    decreases |steps|
  {
    hide Inv, After, OnlyProgress, ControlRuns.Grows, SessionChains.Grows;
    if steps == [] {
      OnlyProgressReflexive(c.plane);
    } else {
      var m := After(c, steps[0]);
      StepKeeps(c, steps[0]);
      RunKeeps(m, steps[1..]);
      StepIsQuiet(c, steps[0]);
      RunIsQuiet(m, steps[1..]);
      OnlyProgressTransitive(c.plane, m.plane, Run(c, steps).plane);
    }
  }
}
