/** The whole controller: one node row, one revision log and one account status, whichever group of tables
    reads them.  Account transactions and heartbeats touch several groups at once, and every operation that
    writes the audit log raises its counter. */
module Controllers {
  import opened Domain
  import DesiredState
  import Plane
  import Publication
  import ControlRuns
  import Rollback
  import NewestRevisions
  import AccountSides
  import Sessions
  import SessionChains
  import Telemetry
  import Rollups
  import Endpoints
  import Evidence

  /** The tables of one controller, with the audit log length and the newest bundle generation per device. */
  datatype Controller = Controller(
    plane: Plane.Tables,
    sessions: Sessions.Store,
    telemetry: Telemetry.World,
    endpoints: Endpoints.Registry,
    audit: nat,
    bundles: map<DeviceId, nat>)

  const NewController: Controller :=
    Controller(Plane.EmptyTables, Sessions.EmptyStore, Telemetry.EmptyWorld, Endpoints.EmptyRegistry, 0, map[])

  // ----- columns shared between groups -----

  function SnapshotsOf(p: Plane.Tables): map<Endpoints.RevisionKey, Endpoints.Snapshot> {
    map r | r in p.revisions ::
      Endpoints.RevisionKey(p.revisions[r].node, r)
      := Endpoints.Snapshot(p.revisions[r].configuration.publicPort, p.revisions[r].canary.credential)
  }

  function CanariesOf(p: Plane.Tables): map<NodeId, nat> {
    map n | n in p.canaries :: p.canaries[n].identity.credential
  }

  function HostsOf(p: Plane.Tables, hosts: map<NodeId, Endpoints.Host>): map<NodeId, Endpoints.Host> {
    map n | n in p.nodes ::
      if n in hosts then hosts[n].(node := p.nodes[n]) else Endpoints.Host(p.nodes[n], 0, 0, None, None)
  }

  /** A new canary makes the verifications of its node worthless. */
  function ResetVerifications(vs: map<Endpoints.EndpointKey, Endpoints.Verification>, reset: set<NodeId>)
    : map<Endpoints.EndpointKey, Endpoints.Verification>
  {
    map k | k in vs ::
      if k.node in reset && vs[k].status != Endpoints.Withdrawn
      then Endpoints.Verification(Endpoints.Unverified, None, None) else vs[k]
  }

  /** The endpoint tables after the publication tables became `p`. */
  function SeenByEndpoints(p: Plane.Tables, e: Endpoints.Registry, reset: set<NodeId>): Endpoints.Registry {
    e.(hosts := HostsOf(p, e.hosts), snapshots := SnapshotsOf(p), canaries := CanariesOf(p),
       verifications := ResetVerifications(e.verifications, reset))
  }

  function StatusesOf(p: Plane.Tables): map<NodeId, Plane.NodeStatus> {
    map n | n in p.nodes :: p.nodes[n].status
  }

  function SeenByTelemetry(p: Plane.Tables, w: Telemetry.World): Telemetry.World {
    w.(tables := w.tables.(nodes := StatusesOf(p), assignments := p.assignments.Keys))
  }

  /** The publication tables became `p`; `rows` audit rows were written. */
  function WithPlane(c: Controller, p: Plane.Tables, reset: set<NodeId>, rows: nat): Controller {
    c.(plane := p, endpoints := SeenByEndpoints(p, c.endpoints, reset), telemetry := SeenByTelemetry(p, c.telemetry),
       audit := c.audit + rows)
  }

  // ----- audit rows -----

  function Published(t: Plane.Tables, q: Plane.Tables): nat {
    if t.last < q.last then q.last - t.last else 0
  }

  /** Audit rows of a committed publication step: one per published revision, and its own.  Received and
      validated reports write none. */
  ghost function PlaneRows(t: Plane.Tables, s: ControlRuns.Step, q: Plane.Tables): nat {
    Published(t, q) +
    match s
    case DoPublish(_, _, _) => 0
    case DoEnroll(_, _, _, bootstrap, _) => if bootstrap.Some? then 2 else 1
    case DoReconcile(_, _) => if q.last == t.last then 1 else 0
    case DoRollback(key, targets, _, _) => if key in t.replays then 0 else |targets|
    case DoRecord(_, _, r) =>
      if q == t then 0
      else (match r.state
            case Received => 0
            case Validated => 0
            case Applied => 1
            case Rejected => 1
            case RolledBack => 2)
    case DoReport(_, _, _) => 0
    case _ => 1
  }

  /** A refresh that reuses a credential is refused but recorded. */
  function SessionRows(t: Sessions.Store, s: Sessions.Step, q: Sessions.Store): nat {
    match s
    case DoLogout(member, path) => if Sessions.Logout(t, member, path).Ok? then 1 else 0
    case DoRefresh(credential, key, now) =>
      if q != t || Sessions.Refresh(t, credential, key, now).reply == Err(Sessions.CredentialReused) then 1 else 0
    case _ => if q != t then 1 else 0
  }

  // ----- account transactions -----

  datatype AccountAction =
    | Create(user: UserId, name: nat)
    | ChangeStatus(user: UserId, requested: Plane.AccountStatus)
    | SetPassword(user: UserId)
    | ResetSessions(user: UserId)
    | ConsumeResetToken(user: UserId)
    | RevokeDevice(device: DeviceId)

  /** The publication side; revoking a device that is not active rotates nothing. */
  ghost function PlaneSide(c: Controller, action: AccountAction, ids: NodeId -> CredentialId,
                           seeds: NodeId -> DesiredState.DesiredUser): Plane.Commit
  {
    match action
    case Create(u, _) => Plane.CreateAccount(c.plane, u)
    case ChangeStatus(u, requested) => Plane.SetStatus(c.plane, u, requested, ids, seeds)
    case SetPassword(u) => Plane.RotateAccount(c.plane, u, Plane.PasswordSet, ids, seeds)
    case ResetSessions(u) => Plane.RotateAccount(c.plane, u, Plane.SessionsReset, ids, seeds)
    case ConsumeResetToken(u) => Plane.RotateAccount(c.plane, u, Plane.ResetTokenConsumed, ids, seeds)
    case RevokeDevice(d) =>
      if d !in c.sessions.devices then Err(Plane.AccountNotFound)
      else if c.sessions.devices[d].status != Sessions.DeviceActive then Ok(c.plane)
      else Plane.RotateAccount(c.plane, c.sessions.devices[d].user, Plane.RotationTrigger.DeviceRevoked, ids, seeds)
  }

  function SessionSide(c: Controller, action: AccountAction): Outcome<Sessions.Store, Sessions.SessionError> {
    match action
    case Create(u, name) => Sessions.CreateUser(c.sessions, u, name)
    case ChangeStatus(u, requested) => Sessions.SetUserStatus(c.sessions, u, requested)
    case SetPassword(u) => Sessions.SetPassword(c.sessions, u)
    case ResetSessions(u) => Sessions.ResetSessions(c.sessions, u)
    case ConsumeResetToken(u) => Sessions.ConsumeReset(c.sessions, u)
    case RevokeDevice(d) => Sessions.RevokeDevice(c.sessions, d)
  }

  /** Both sides commit, or neither. */
  ghost function Transact(c: Controller, action: AccountAction, ids: NodeId -> CredentialId,
                          seeds: NodeId -> DesiredState.DesiredUser): Controller
  {
    match (PlaneSide(c, action, ids, seeds), SessionSide(c, action))
    case (Ok(plane), Ok(sessions)) => WithPlane(c, plane, {}, Published(c.plane, plane) + 1).(sessions := sessions)
    case _ => c
  }

  // ----- heartbeats -----

  /** A heartbeat writes the node row that all groups share. */
  function Beat(c: Controller, n: NodeId, h: Endpoints.Heartbeat, now: Time): Controller {
    match Endpoints.Beat(c.endpoints, n, h, now)
    case Ok(e) =>
      if n in e.hosts then c.(endpoints := e, plane := c.plane.(nodes := c.plane.nodes[n := e.hosts[n].node])) else c
    case Err(_) => c
  }

  // ----- steps -----

  datatype Step =
    | PlaneStep(plane: ControlRuns.Step)
    | SessionStep(session: Sessions.Step)
    | AccountStep(action: AccountAction, ids: NodeId -> CredentialId, seeds: NodeId -> DesiredState.DesiredUser)
    | HeartbeatStep(node: NodeId, heartbeat: Endpoints.Heartbeat, now: Time)
    | TelemetryStep(telemetry: Telemetry.Step)
    | EndpointStep(endpoint: Endpoints.Step)
    | AuditStep
    | BundleStep(device: DeviceId)

  /** Publication steps that are operations of their own. */
  predicate Alone(s: ControlRuns.Step) {
    AccountSides.LeavesAccounts(s) && !s.DoReport?
  }

  predicate LeavesUsers(s: Sessions.Step) {
    s.DoLogin? || s.DoCreateActivation? || s.DoConsumeActivation? || s.DoRefresh? || s.DoLogout?
  }

  predicate Probes(s: Endpoints.Step) {
    s.DoClaim? || s.DoComplete?
  }

  predicate Collects(s: Telemetry.Step) {
    s.DoPolicy? || s.DoIngest? || s.DoRetain?
  }

  ghost function Operate(c: Controller, s: ControlRuns.Step): Controller {
    var q := ControlRuns.After(c.plane, s);
    if ControlRuns.Commits(c.plane, s).Err? then c
    else WithPlane(c, q, if s.DoRotateCanary? then {s.node} else {}, PlaneRows(c.plane, s, q))
  }

  /** `AuditStep` is a row written by a rejection or by an operation outside this model. */
  ghost function After(c: Controller, step: Step): Controller {
    match step
    case PlaneStep(s) => if Alone(s) then Operate(c, s) else c
    case SessionStep(s) =>
      if LeavesUsers(s)
      then c.(sessions := Sessions.After(c.sessions, s),
              audit := c.audit + SessionRows(c.sessions, s, Sessions.After(c.sessions, s)))
      else c
    case AccountStep(action, ids, seeds) => Transact(c, action, ids, seeds)
    case HeartbeatStep(n, h, now) => Beat(c, n, h, now)
    case TelemetryStep(s) =>
      if Collects(s)
      then c.(telemetry := Telemetry.After(c.telemetry, s), audit := c.audit + if s.DoRetain? then 1 else 0) else c
    case EndpointStep(s) => if Probes(s) then c.(endpoints := Endpoints.After(c.endpoints, s)) else c
    case AuditStep => c.(audit := c.audit + 1)
    case BundleStep(d) =>
      c.(bundles := c.bundles[d := (if d in c.bundles then c.bundles[d] else 0) + 1], audit := c.audit + 1)
  }

  ghost function Run(c: Controller, steps: seq<Step>): Controller
    decreases |steps|
  {
    if steps == [] then c else Run(After(c, steps[0]), steps[1..])
  }

  // ----- invariants -----

  /** One status per account. */
  ghost predicate Coherent(t: Plane.Tables, s: Sessions.Store) {
    && t.accounts.Keys == s.users.Keys
    && forall u :: u in t.accounts ==> t.accounts[u] == s.users[u].status
  }

  /** One node row, one revision log, one canary. */
  ghost predicate Linked(t: Plane.Tables, e: Endpoints.Registry) {
    && e.hosts.Keys == t.nodes.Keys && (forall n :: n in t.nodes ==> e.hosts[n].node == t.nodes[n])
    && e.snapshots == SnapshotsOf(t) && e.canaries == CanariesOf(t)
  }

  ghost predicate Observed(t: Plane.Tables, w: Telemetry.World) {
    w.tables.nodes == StatusesOf(t) && w.tables.assignments == t.assignments.Keys
  }

  ghost predicate PlaneInv(t: Plane.Tables) {
    Publication.Inv(t) && NewestRevisions.Tracks(t)
  }

  ghost predicate Inv(c: Controller) {
    && PlaneInv(c.plane) && SessionChains.Inv(c.sessions) && Evidence.Inv(c.endpoints) && Rollups.Inv(c.telemetry)
    && Coherent(c.plane, c.sessions) && Linked(c.plane, c.endpoints) && Observed(c.plane, c.telemetry)
  }

  /** What no step takes back. */
  ghost predicate Grows(c: Controller, q: Controller) {
    && ControlRuns.Grows(c.plane, q.plane) && SessionChains.Grows(c.sessions, q.sessions)
    && c.audit <= q.audit && |c.endpoints.attempts| <= |q.endpoints.attempts|
  }

  // ----- shared columns stay shared -----

  lemma SeenIsPlaneChange(t: Plane.Tables, q: Plane.Tables, e: Endpoints.Registry, reset: set<NodeId>)
    requires Linked(t, e) && ControlRuns.Grows(t, q)
    ensures Evidence.PlaneChange(e, SeenByEndpoints(q, e, reset))
  {
    hide ControlRuns.Grows, SnapshotsOf, HostsOf;
    SnapshotsKept(t, q, e);
    HostsKept(t, q, e);
  }

  lemma SnapshotsKept(t: Plane.Tables, q: Plane.Tables, e: Endpoints.Registry)
    requires e.snapshots == SnapshotsOf(t) && ControlRuns.Grows(t, q)
    ensures forall r :: r in e.snapshots ==> r in SnapshotsOf(q)
  {
    assert Rollback.RevisionsKept(t, q);
    hide ControlRuns.Grows;
    forall r | r in e.snapshots ensures r in SnapshotsOf(q) {
      assert r.revision in t.revisions && t.revisions[r.revision].node == r.node;
      assert q.revisions[r.revision] == t.revisions[r.revision];
      assert Endpoints.RevisionKey(q.revisions[r.revision].node, r.revision) in SnapshotsOf(q);
    }
  }

  lemma HostsKept(t: Plane.Tables, q: Plane.Tables, e: Endpoints.Registry)
    requires e.hosts.Keys == t.nodes.Keys && ControlRuns.Grows(t, q)
    ensures var hosts := HostsOf(q, e.hosts);
            && (forall n :: n in e.hosts ==>
                  n in hosts && hosts[n].generation == e.hosts[n].generation && hosts[n].last == e.hosts[n].last)
            && (forall n :: n in hosts && n !in e.hosts ==> hosts[n].generation == 0 && hosts[n].last.None?)
  {
    assert ControlRuns.NodesGrow(t, q);
    hide ControlRuns.Grows;
  }

  lemma SeenIsLinked(q: Plane.Tables, e: Endpoints.Registry, reset: set<NodeId>)
    ensures Linked(q, SeenByEndpoints(q, e, reset))
  {
  }

  lemma SeenKeepsTelemetry(q: Plane.Tables, w: Telemetry.World)
    requires Rollups.Inv(w)
    ensures Rollups.Inv(SeenByTelemetry(q, w))
  {
    var z := SeenByTelemetry(q, w);
    Rollups.RolledIgnoresCursors(w.tables, z.tables, w.ledger, w.passes);
    hide Rollups.Rolled;
    forall n ensures Rollups.Counted(z, n) {
      assert Rollups.Counted(w, n);
    }
  }

  /** A change of the publication tables that keeps their invariant keeps everything else. */
  lemma WithPlaneKeeps(c: Controller, q: Plane.Tables, reset: set<NodeId>, rows: nat)
    requires Inv(c) && PlaneInv(q) && ControlRuns.Grows(c.plane, q)
    ensures var z := WithPlane(c, q, reset, rows);
            && Evidence.Inv(z.endpoints) && Rollups.Inv(z.telemetry) && Linked(z.plane, z.endpoints)
            && Observed(z.plane, z.telemetry) && |c.endpoints.attempts| <= |z.endpoints.attempts|
  {
    hide PlaneInv, ControlRuns.Grows, Evidence.Inv, Rollups.Inv, Linked, Evidence.PlaneChange, SeenByEndpoints;
    SeenIsPlaneChange(c.plane, q, c.endpoints, reset);
    Evidence.PlaneChangeKeeps(c.endpoints, SeenByEndpoints(q, c.endpoints, reset));
    SeenIsLinked(q, c.endpoints, reset);
    SeenKeepsTelemetry(q, c.telemetry);
    SeenAttempts(q, c.endpoints, reset);
  }

  lemma SeenAttempts(q: Plane.Tables, e: Endpoints.Registry, reset: set<NodeId>)
    ensures SeenByEndpoints(q, e, reset).attempts == e.attempts
  {
  }

  // ----- account transactions -----

  /** The session side never refuses what the publication side commits, and both sides still agree. */
  lemma TransactionAgrees(c: Controller, action: AccountAction, ids: NodeId -> CredentialId,
                          seeds: NodeId -> DesiredState.DesiredUser, plane: Plane.Tables)
    requires Inv(c) && PlaneSide(c, action, ids, seeds) == Ok(plane)
    ensures SessionSide(c, action).Ok? && Coherent(plane, SessionSide(c, action).value)
  {
    hide Publication.Inv, NewestRevisions.Tracks, SessionChains.Inv, Evidence.Inv, Rollups.Inv, Linked, Observed,
         Plane.SetStatus, Plane.RotateAccount;
    match action {
      case Create(u, name) =>
      case ChangeStatus(u, requested) =>
        AccountSides.StatusSetsAccount(c.plane, u, requested, ids, seeds, plane);
        StatusAgrees(c.plane, c.sessions, u, requested, plane);
      case SetPassword(u) =>
        AccountSides.RotationKeepsAccounts(c.plane, u, Plane.PasswordSet, ids, seeds, plane);
        SameStatusAgrees(c.plane, c.sessions, plane, Sessions.SetPassword(c.sessions, u).value);
      case ResetSessions(u) =>
        AccountSides.RotationKeepsAccounts(c.plane, u, Plane.SessionsReset, ids, seeds, plane);
        SameStatusAgrees(c.plane, c.sessions, plane, Sessions.ResetSessions(c.sessions, u).value);
      case ConsumeResetToken(u) =>
        AccountSides.RotationKeepsAccounts(c.plane, u, Plane.ResetTokenConsumed, ids, seeds, plane);
        SameStatusAgrees(c.plane, c.sessions, plane, Sessions.ConsumeReset(c.sessions, u).value);
      case RevokeDevice(d) =>
        if c.sessions.devices[d].status == Sessions.DeviceActive {
          var trigger := Plane.RotationTrigger.DeviceRevoked;
          AccountSides.RotationKeepsAccounts(c.plane, c.sessions.devices[d].user, trigger, ids, seeds, plane);
        }
        SameStatusAgrees(c.plane, c.sessions, plane, Sessions.RevokeDevice(c.sessions, d).value);
    }
  }

  lemma StatusAgrees(t: Plane.Tables, s: Sessions.Store, u: UserId, requested: Plane.AccountStatus, q: Plane.Tables)
    requires Coherent(t, s) && u in t.accounts && q.accounts == t.accounts[u := requested]
    requires t.accounts[u] == Plane.AccountDeleted ==> requested == Plane.AccountDeleted
    ensures Sessions.SetUserStatus(s, u, requested).Ok?
    ensures Coherent(q, Sessions.SetUserStatus(s, u, requested).value)
  {
    hide Sessions.RevokeUserSessions;
  }

  lemma SameStatusAgrees(t: Plane.Tables, s: Sessions.Store, q: Plane.Tables, z: Sessions.Store)
    requires Coherent(t, s) && q.accounts == t.accounts && z.users.Keys == s.users.Keys
    requires forall u :: u in s.users ==> z.users[u].status == s.users[u].status
    ensures Coherent(q, z)
  {
  }

  /** The step of each group that an account transaction takes. */
  function PlaneStepOf(c: Controller, action: AccountAction, ids: NodeId -> CredentialId,
                       seeds: NodeId -> DesiredState.DesiredUser): Option<ControlRuns.Step>
  {
    match action
    case Create(u, _) => Some(ControlRuns.DoCreateAccount(u))
    case ChangeStatus(u, requested) => Some(ControlRuns.DoSetStatus(u, requested, ids, seeds))
    case SetPassword(u) => Some(ControlRuns.DoRotateAccount(u, Plane.PasswordSet, ids, seeds))
    case ResetSessions(u) => Some(ControlRuns.DoRotateAccount(u, Plane.SessionsReset, ids, seeds))
    case ConsumeResetToken(u) => Some(ControlRuns.DoRotateAccount(u, Plane.ResetTokenConsumed, ids, seeds))
    case RevokeDevice(d) =>
      if d in c.sessions.devices && c.sessions.devices[d].status == Sessions.DeviceActive
      then Some(ControlRuns.DoRotateAccount(c.sessions.devices[d].user, Plane.RotationTrigger.DeviceRevoked, ids,
          seeds))
      else None
  }

  function SessionStepOf(action: AccountAction): Sessions.Step {
    match action
    case Create(u, name) => Sessions.DoCreateUser(u, name)
    case ChangeStatus(u, requested) => Sessions.DoSetUserStatus(u, requested)
    case SetPassword(u) => Sessions.DoSetPassword(u)
    case ResetSessions(u) => Sessions.DoResetSessions(u)
    case ConsumeResetToken(u) => Sessions.DoConsumeReset(u)
    case RevokeDevice(d) => Sessions.DoRevokeDevice(d)
  }

  lemma SidesAreSteps(c: Controller, action: AccountAction, ids: NodeId -> CredentialId,
                      seeds: NodeId -> DesiredState.DesiredUser, plane: Plane.Tables)
    requires PlaneSide(c, action, ids, seeds) == Ok(plane)
    ensures match PlaneStepOf(c, action, ids, seeds)
            case None => plane == c.plane
            case Some(s) => ControlRuns.After(c.plane, s) == plane
  {
    hide Plane.SetStatus, Plane.RotateAccount, Plane.CreateAccount;
  }

  lemma SessionSideIsStep(c: Controller, action: AccountAction)
    requires SessionSide(c, action).Ok?
    ensures Sessions.After(c.sessions, SessionStepOf(action)) == SessionSide(c, action).value
  {
    hide Sessions.RevokeDeviceSessions, Sessions.EndSessions, Sessions.RevokeUserDevices;
  }

  lemma TransactKeeps(c: Controller, action: AccountAction, ids: NodeId -> CredentialId,
                      seeds: NodeId -> DesiredState.DesiredUser)
    requires Inv(c)
    ensures Inv(Transact(c, action, ids, seeds)) && Grows(c, Transact(c, action, ids, seeds))
  {
    hide Publication.Inv, NewestRevisions.Tracks, SessionChains.Inv, Evidence.Inv, Rollups.Inv, Linked, Observed,
         PlaneSide, SessionSide, ControlRuns.Grows, SessionChains.Grows, ControlRuns.After, Sessions.After, Coherent,
         SeenByEndpoints, SeenByTelemetry;
    GrowsReflexive(c);
    match PlaneSide(c, action, ids, seeds) {
      case Err(_) =>
      case Ok(plane) =>
        TransactionAgrees(c, action, ids, seeds, plane);
        SidesAreSteps(c, action, ids, seeds, plane);
        SessionSideIsStep(c, action);
        SessionChains.StepKeeps(c.sessions, SessionStepOf(action));
        match PlaneStepOf(c, action, ids, seeds) {
          case None =>
          case Some(s) =>
            ControlRuns.EveryStepKeeps(c.plane, s);
            NewestRevisions.StepKeepsTracks(c.plane, s);
        }
        WithPlaneKeeps(c, plane, {}, Published(c.plane, plane) + 1);
    }
  }

  lemma GrowsReflexive(c: Controller)
    ensures Grows(c, c)
  {
    hide ControlRuns.Grows, SessionChains.Grows;
    ControlRuns.GrowsReflexive(c.plane);
    SessionChains.GrowsReflexive(c.sessions);
  }

  // ----- heartbeats -----

  lemma TargetIsSnapshot(t: Plane.Tables, e: Endpoints.Registry, n: NodeId, r: nat)
    requires Linked(t, e)
    ensures Endpoints.RevisionKey(n, r) in e.snapshots <==> Plane.Targeted(t, n, r)
  {
    if Plane.Targeted(t, n, r) {
      assert Endpoints.RevisionKey(t.revisions[r].node, r) in SnapshotsOf(t);
    }
  }

  /** What an accepted heartbeat does to the shared row is the publication tables' own progress step, or
      nothing when it repeats the last one. */
  lemma BeatIsReport(c: Controller, n: NodeId, h: Endpoints.Heartbeat, now: Time, e: Endpoints.Registry)
    requires Inv(c) && Endpoints.Beat(c.endpoints, n, h, now) == Ok(e)
    ensures n in c.plane.nodes && n in e.hosts
    ensures e.hosts == c.endpoints.hosts[n := e.hosts[n]] && e.snapshots == c.endpoints.snapshots
    ensures e.canaries == c.endpoints.canaries
    ensures if e == c.endpoints then e.hosts[n].node == c.plane.nodes[n]
            else Plane.ReportProgress(c.plane, n, h.progress, h.agentVersion)
                 == Ok(c.plane.(nodes := c.plane.nodes[n := e.hosts[n].node]))
  {
    hide PlaneInv, SessionChains.Inv, Rollups.Inv, Coherent, Observed, Plane.ProgressError, Plane.Targeted,
         Endpoints.RecordCandidates, Endpoints.ValidReport, DesiredState.ShortText;
    TargetIsSnapshot(c.plane, c.endpoints, n, h.progress.desired);
    BeatHosts(c.endpoints, n, h, now, e);
    hide Evidence.Inv;
    assert c.endpoints.hosts[n].node == c.plane.nodes[n];
  }

  lemma BeatHosts(t: Endpoints.Registry, n: NodeId, h: Endpoints.Heartbeat, now: Time, e: Endpoints.Registry)
    requires Evidence.Inv(t) && Endpoints.Beat(t, n, h, now) == Ok(e)
    ensures n in t.hosts && n in e.hosts && e.snapshots == t.snapshots && e.canaries == t.canaries
    ensures e.hosts == t.hosts[n := e.hosts[n]]
    ensures e != t ==> e.hosts == Endpoints.Seen(t, n, h, now).hosts
  {
    hide Evidence.Inv, Endpoints.Beat, Endpoints.ValidHeartbeat;
    Evidence.BeatCases(t, e, n, h, now);
    if e == t {
      assert t.hosts[n := t.hosts[n]] == t.hosts;
    } else {
      BeatenHosts(t, e, n, h, now);
    }
  }

  lemma BeatenHosts(t: Endpoints.Registry, e: Endpoints.Registry, n: NodeId, h: Endpoints.Heartbeat, now: Time)
    requires Evidence.Beaten(t, e, n, h, now)
    ensures e.hosts == Endpoints.Seen(t, n, h, now).hosts && e.snapshots == t.snapshots && e.canaries == t.canaries
  {
  }

  lemma BeatKeeps(c: Controller, n: NodeId, h: Endpoints.Heartbeat, now: Time)
    requires Inv(c)
    ensures Inv(Beat(c, n, h, now)) && Grows(c, Beat(c, n, h, now))
  {
    hide Inv, Grows, Endpoints.Beat;
    GrowsReflexive(c);
    match Endpoints.Beat(c.endpoints, n, h, now) {
      case Err(_) =>
      case Ok(e) =>
        BeatIsReport(c, n, h, now, e);
        EndpointsOf(c);
        EndpointsKeep(c.endpoints, Endpoints.DoBeat(n, h, now));
        AcceptedBeatKeeps(c, n, h, e);
    }
  }

  lemma EndpointsOf(c: Controller)
    requires Inv(c)
    ensures Evidence.Inv(c.endpoints)
  {
  }

  lemma AcceptedBeatKeeps(c: Controller, n: NodeId, h: Endpoints.Heartbeat, e: Endpoints.Registry)
    requires Inv(c) && Evidence.Inv(e) && |c.endpoints.attempts| <= |e.attempts| && n in c.plane.nodes && n in e.hosts
    requires e.hosts == c.endpoints.hosts[n := e.hosts[n]] && e.snapshots == c.endpoints.snapshots
    requires e.canaries == c.endpoints.canaries
    requires if e == c.endpoints then e.hosts[n].node == c.plane.nodes[n]
             else Plane.ReportProgress(c.plane, n, h.progress, h.agentVersion)
                  == Ok(c.plane.(nodes := c.plane.nodes[n := e.hosts[n].node]))
    ensures var z := c.(endpoints := e, plane := c.plane.(nodes := c.plane.nodes[n := e.hosts[n].node]));
            Inv(z) && Grows(c, z)
  {
    hide PlaneInv, SessionChains.Inv, Evidence.Inv, Rollups.Inv, ControlRuns.Grows, SessionChains.Grows,
         Plane.ReportProgress,
         Linked, Observed;
    var q := c.plane.(nodes := c.plane.nodes[n := e.hosts[n].node]);
    GrowsReflexive(c);
    if e == c.endpoints {
      assert c.plane.nodes[n := c.plane.nodes[n]] == c.plane.nodes;
    } else {
      ReportKeeps(c.plane, n, h.progress, h.agentVersion, q);
      SameLinks(c.plane, q, n, c.endpoints, e);
      SameStatuses(c.plane, q, c.telemetry);
    }
  }

  lemma EndpointsKeep(t: Endpoints.Registry, step: Endpoints.Step)
    requires Evidence.Inv(t)
    ensures Evidence.Inv(Endpoints.After(t, step)) && |t.attempts| <= |Endpoints.After(t, step).attempts|
  {
    hide Evidence.Inv, Endpoints.After;
    Evidence.StepKeeps(t, step);
  }

  lemma ReportKeeps(t: Plane.Tables, n: NodeId, g: Plane.Progress, version: string, q: Plane.Tables)
    requires PlaneInv(t) && Plane.ReportProgress(t, n, g, version) == Ok(q)
    ensures PlaneInv(q) && ControlRuns.Grows(t, q)
    ensures q.accounts == t.accounts && q.assignments == t.assignments && StatusesOf(q) == StatusesOf(t)
  {
    hide Publication.Inv, NewestRevisions.Tracks, ControlRuns.Grows, Plane.ProgressError, DesiredState.ShortText;
    ControlRuns.EveryStepKeeps(t, ControlRuns.DoReport(n, g, version));
    NewestRevisions.StepKeepsTracks(t, ControlRuns.DoReport(n, g, version));
  }

  lemma SameLinks(t: Plane.Tables, q: Plane.Tables, n: NodeId, e: Endpoints.Registry, z: Endpoints.Registry)
    requires Linked(t, e) && n in t.nodes && n in z.hosts && q == t.(nodes := t.nodes[n := z.hosts[n].node])
    requires z.hosts == e.hosts[n := z.hosts[n]] && z.snapshots == e.snapshots && z.canaries == e.canaries
    ensures Linked(q, z)
  {
    assert SnapshotsOf(q) == SnapshotsOf(t) && CanariesOf(q) == CanariesOf(t);
  }

  lemma SameStatuses(t: Plane.Tables, q: Plane.Tables, w: Telemetry.World)
    requires Observed(t, w) && StatusesOf(q) == StatusesOf(t) && q.assignments == t.assignments
    ensures Observed(q, w)
  {
  }

  // ----- every step -----

  lemma OperateKeeps(c: Controller, s: ControlRuns.Step)
    requires Inv(c) && Alone(s)
    ensures Inv(Operate(c, s)) && Grows(c, Operate(c, s))
  {
    hide Publication.Inv, NewestRevisions.Tracks, SessionChains.Inv, Evidence.Inv, Rollups.Inv, Linked, Observed,
         ControlRuns.Grows, SessionChains.Grows, ControlRuns.After, ControlRuns.Commits, SeenByEndpoints,
             SeenByTelemetry,
         PlaneRows;
    GrowsReflexive(c);
    var q := ControlRuns.After(c.plane, s);
    ControlRuns.EveryStepKeeps(c.plane, s);
    NewestRevisions.StepKeepsTracks(c.plane, s);
    AccountSides.PlaneKeepsAccounts(c.plane, s);
    WithPlaneKeeps(c, q, if s.DoRotateCanary? then {s.node} else {}, PlaneRows(c.plane, s, q));
  }

  lemma UsersUntouched(t: Sessions.Store, s: Sessions.Step)
    requires LeavesUsers(s)
    ensures Sessions.After(t, s).users == t.users
  {
  }

  lemma CollectedKeeps(w: Telemetry.World, s: Telemetry.Step)
    requires Rollups.Inv(w) && Collects(s)
    ensures var z := Telemetry.After(w, s);
            Rollups.Inv(z) && z.tables.nodes == w.tables.nodes && z.tables.assignments == w.tables.assignments
  {
    hide Rollups.Inv;
    Rollups.StepKeeps(w, s);
    if s.DoIngest? {
      IngestFrame(w.tables, s.node, s.batch, s.now);
    }
  }

  lemma IngestFrame(t: Telemetry.TelemetryTables, n: NodeId, b: Telemetry.Batch, now: Time)
    ensures var q := Telemetry.Ingest(t, n, b, now).tables; q.nodes == t.nodes && q.assignments == t.assignments
  {
    var known := t.(cursors := t.cursors[n := Telemetry.Acknowledged(t, n)]);
    match Telemetry.PersistAll(known, n, b.events, now) {
      case Err(_) =>
      case Ok(s) => PersistAllFrame(known, n, b.events, now, s);
    }
    hide Telemetry.PersistAll, Telemetry.ValidBatch;
  }

  lemma {:induction false} PersistAllFrame(t: Telemetry.TelemetryTables, n: NodeId, events: seq<Telemetry.Event>,
                                           now: Time,
                                           q: Telemetry.TelemetryTables)
    requires Telemetry.PersistAll(t, n, events, now) == Ok(q)
    ensures q.nodes == t.nodes && q.assignments == t.assignments && q.cursors == t.cursors
    decreases |events|
  {
    hide Telemetry.Persist;
    if events != [] {
      var m := Telemetry.Persist(t, n, events[0], now).value;
      Rollups.PersistFrame(t, n, events[0], now, m);
      PersistAllFrame(m, n, events[1..], now, q);
    }
  }

  lemma ProbeKeepsLinks(t: Endpoints.Registry, s: Endpoints.Step)
    requires Probes(s)
    ensures var z := Endpoints.After(t, s);
            z.hosts == t.hosts && z.snapshots == t.snapshots && z.canaries == t.canaries
  {
    hide Endpoints.Claim, Endpoints.Complete;
    match s {
      case DoClaim(phase, choice, claim, options, now) => Evidence.ClaimFrame(t, phase, choice, claim, options, now);
      case DoComplete(job, connected, now) => Evidence.CompleteFrame(t, job, connected, now);
    }
  }

  /** Every step keeps every invariant and takes nothing back. */
  lemma StepKeeps(c: Controller, step: Step)
    requires Inv(c)
    ensures Inv(After(c, step)) && Grows(c, After(c, step))
  {
    hide PlaneInv, SessionChains.Inv, Evidence.Inv, Rollups.Inv, ControlRuns.Grows, SessionChains.Grows, Sessions.After,
         Telemetry.After, Endpoints.After, Operate, Transact, Beat, SessionRows;
    GrowsReflexive(c);
    match step {
      case PlaneStep(s) =>
        if Alone(s) {
          OperateKeeps(c, s);
        }
      case SessionStep(s) =>
        if LeavesUsers(s) {
          SessionChains.StepKeeps(c.sessions, s);
          UsersUntouched(c.sessions, s);
        }
      case AccountStep(action, ids, seeds) => TransactKeeps(c, action, ids, seeds);
      case HeartbeatStep(n, h, now) => BeatKeeps(c, n, h, now);
      case TelemetryStep(s) =>
        if Collects(s) {
          CollectedKeeps(c.telemetry, s);
        }
      case EndpointStep(s) =>
        if Probes(s) {
          EndpointsKeep(c.endpoints, s);
          ProbeKeepsLinks(c.endpoints, s);
        }
      case _ =>
    }
  }

  lemma GrowsTransitive(a: Controller, b: Controller, c: Controller)
    requires Grows(a, b) && Grows(b, c)
    ensures Grows(a, c)
  {
    hide ControlRuns.Grows, SessionChains.Grows;
    ControlRuns.GrowsTransitive(a.plane, b.plane, c.plane);
    SessionChains.GrowsTransitive(a.sessions, b.sessions, c.sessions);
  }

  lemma {:induction false} RunKeeps(c: Controller, steps: seq<Step>)
    requires Inv(c)
    ensures Inv(Run(c, steps)) && Grows(c, Run(c, steps))
    decreases |steps|
  {
    hide Inv, After, Grows;
    if steps == [] {
      GrowsReflexive(c);
    } else {
      StepKeeps(c, steps[0]);
      RunKeeps(After(c, steps[0]), steps[1..]);
      GrowsTransitive(c, After(c, steps[0]), Run(c, steps));
    }
  }

  lemma NewControllerKeepsInv()
    ensures Inv(NewController)
  {
    ControlRuns.EmptyIsInvariant();
    SessionChains.Reachable([]);
    Evidence.Reachable([]);
    Rollups.EmptyIsInvariant();
    hide Publication.Inv, SessionChains.Inv, Evidence.Inv, Rollups.Inv;
  }

  lemma Reachable(steps: seq<Step>)
    ensures Inv(Run(NewController, steps))
  {
    hide Run, Inv, Grows;
    NewControllerKeepsInv();
    RunKeeps(NewController, steps);
  }
}
