/** The control-plane tables (nodes, revisions, result journal, accounts, assignments, member
    credentials, canary credentials, rollback replays) and every operation on them as one atomic step.

    A step maps the tables before the transaction to the tables after commit, or to the error that
    aborted it; an aborted step changes nothing.  Revision cursors use 0 for SQL NULL. */
module Plane {
  import opened Domain
  import opened Ordering
  import opened DesiredState
  import opened AgentVersion

  // ----- rows -----

  datatype NodeStatus = NodePending | NodeActive | NodeDisabled | NodeRevoked

  datatype Node = Node(
    status: NodeStatus,
    desired: nat,
    reported: nat,
    received: nat,
    validated: nat,
    applied: nat,
    xray: bool,
    agentVersion: string)

  /** One published revision: its target, configuration, document users, member snapshot and canary. */
  datatype Revision = Revision(
    node: NodeId,
    configuration: Configuration,
    users: seq<DesiredUser>,
    members: set<CredentialId>,
    canary: DesiredUser)

  datatype ResultState = Received | Validated | Applied | Rejected | RolledBack

  datatype RevisionResult = RevisionResult(
    state: ResultState,
    digest: Option<nat>,
    startedAt: Time,
    completedAt: Time,
    error: Option<nat>,
    rollback: Option<nat>)

  /** Primary key of the result journal (each revision targets exactly one node). */
  datatype ResultKey = ResultKey(revision: nat, state: ResultState)

  datatype AccountStatus = AccountActive | AccountDisabled | AccountDeleted
  datatype AssignmentStatus = Enabled | Disabled | Deleted

  /** Assignments are unique per user and node. */
  datatype Pair = Pair(user: UserId, node: NodeId)

  datatype CredentialStatus = Pending | Active | Retiring | Revoked

  datatype Credential = Credential(user: UserId, node: NodeId, version: nat, status: CredentialStatus)

  /** The active canary credential of a node and the identifiers of its retired predecessors. */
  datatype Canary = Canary(identity: DesiredUser, generation: nat, retired: set<CredentialId>)

  datatype RollbackReason = ConfigurationFailure | CompatibilityFailure | FleetRecovery | Other
  datatype RollbackTarget = RollbackTarget(node: NodeId, source: nat, failed: nat)
  datatype RollbackPublication = RollbackPublication(node: NodeId, source: nat, failed: nat, revision: nat)
  datatype RollbackKey = RollbackKey(route: nat, key: nat)
  datatype RollbackRecord = RollbackRecord(targets: seq<RollbackTarget>, reason: RollbackReason,
                                           response: seq<RollbackPublication>)

  datatype Tables = Tables(
    last: nat,
    nodes: map<NodeId, Node>,
    revisions: map<nat, Revision>,
    journal: map<ResultKey, RevisionResult>,
    accounts: map<UserId, AccountStatus>,
    assignments: map<Pair, AssignmentStatus>,
    credentials: map<CredentialId, Credential>,
    canaries: map<NodeId, Canary>,
    replays: map<RollbackKey, RollbackRecord>)

  datatype PlaneError =
    | NodeNotFound | NodeIsRevoked | NodeUnavailable(node: NodeId) | NodeLifecycleConflict
    | PublicationConflict(status: NodeStatus) | ConfigurationMissing | RevisionOverflow | InvalidDocument
    | ArtifactTooLarge
    | StoredValue | ConstraintViolation | InvalidResult | ResultConflict | TargetNotFound
    | ProgressRegressed | ProgressConflict
    | AccountNotFound | AccountLifecycleConflict | AccountBlocked | AssignmentConflict(node: NodeId)
    | RollbackInvalid | RollbackIncompatible | KeyConflict | InvalidRequest

  type Commit = Outcome<Tables, PlaneError>

  const EmptyTables: Tables := Tables(0, map[], map[], map[], map[], map[], map[], map[], map[])

  // ----- policy -----

  predicate Live(s: CredentialStatus) {
    s == Pending || s == Active
  }

  /** The user set of a node: live credentials of enabled assignments of active accounts. */
  function Compiled(t: Tables, n: NodeId): (r: set<CredentialId>) {
    set c | c in t.credentials && InPolicy(t, n, t.credentials[c]) :: c
  }

  predicate InPolicy(t: Tables, n: NodeId, c: Credential) {
    && c.node == n
    && Live(c.status)
    && Pair(c.user, c.node) in t.assignments && t.assignments[Pair(c.user, c.node)] == Enabled
    && c.user in t.accounts && t.accounts[c.user] == AccountActive
  }

  /** The defensive check while compiling: two rows for one user. */
  predicate DuplicateUser(t: Tables, members: set<CredentialId>)
    requires members <= t.credentials.Keys
  {
    exists c, d :: c in members && d in members && c != d && t.credentials[c].user == t.credentials[d].user
  }

  function MemberUsers(t: Tables, members: set<CredentialId>): set<DesiredUser>
    requires members <= t.credentials.Keys
  {
    set c | c in members :: DesiredUser(t.credentials[c].user, c)
  }

  // ----- publication -----

  /** The node's canary, created at generation 1 when the node has none yet. */
  function CanaryFor(t: Tables, n: NodeId, seed: DesiredUser): Canary {
    if n in t.canaries then t.canaries[n] else Canary(seed, 1, {})
  }

  /** Document validation of the user list: bounded, and no user or credential twice. */
  predicate AcceptableUsers(t: Tables, members: set<CredentialId>, canary: DesiredUser)
    requires members <= t.credentials.Keys
  {
    && |members| + 1 <= MAX_USERS
    && !DuplicateUser(t, members)
    && canary.credential !in members
    && forall c :: c in members ==> t.credentials[c].user != canary.user
  }

  ghost function NewRevision(t: Tables, n: NodeId, configuration: Configuration, members: set<CredentialId>,
                             canary: DesiredUser): Revision
    requires members <= t.credentials.Keys
  {
    Revision(n, CanonicalConfiguration(configuration), CanonicalUsers(MemberUsers(t, members) + {canary}),
             members, canary)
  }

  /** Allocate the next network revision for an active node and snapshot the given members. */
  ghost function Publish(t: Tables, n: NodeId, configuration: Configuration, members: set<CredentialId>,
                         seed: DesiredUser): Commit
    requires members <= t.credentials.Keys
  {
    if t.last >= MAX_I64 then Err(RevisionOverflow)
    else if n !in t.nodes then Err(ConstraintViolation)
    else
      var canary := CanaryFor(t, n, seed);
      if !AcceptableUsers(t, members, canary.identity) || !ValidConfiguration(SCHEMA_VERSION, configuration)
      then Err(InvalidDocument)
      else if !ArtifactFits(CanonicalConfiguration(configuration), t.last + 1, |members| + 1) then Err(ArtifactTooLarge)
      else if t.nodes[n].status != NodeActive then Err(PublicationConflict(t.nodes[n].status))
      else
        var revision := t.last + 1;
        Ok(t.(last := revision,
              revisions := t.revisions[revision := NewRevision(t, n, configuration, members, canary.identity)],
              nodes := t.nodes[n := t.nodes[n].(desired := revision)],
              canaries := t.canaries[n := canary]))
  }

  ghost function PublishCompiled(t: Tables, n: NodeId, configuration: Configuration, seed: DesiredUser): Commit {
    if DuplicateUser(t, Compiled(t, n)) then Err(StoredValue)
    else Publish(t, n, configuration, Compiled(t, n), seed)
  }

  /** Configuration of the node's newest revision; only an active node with a baseline has one. */
  function LatestConfiguration(t: Tables, n: NodeId): Outcome<Configuration, PlaneError> {
    if n !in t.nodes then Err(NodeNotFound)
    else if t.nodes[n].status != NodeActive then Err(PublicationConflict(t.nodes[n].status))
    else if t.nodes[n].desired == 0 then Err(ConfigurationMissing)
    else if t.nodes[n].desired !in t.revisions || t.revisions[t.nodes[n].desired].node != n then Err(StoredValue)
    else Ok(t.revisions[t.nodes[n].desired].configuration)
  }

  ghost function Republish(t: Tables, n: NodeId, seed: DesiredUser): Commit {
    var configuration :- LatestConfiguration(t, n);
    PublishCompiled(t, n, configuration, seed)
  }

  /** One revision per affected node, in ascending node order. */
  ghost function PublishAll(t: Tables, affected: set<NodeId>, seeds: NodeId -> DesiredUser): Commit
    decreases |affected|
  {
    if affected == {} then Ok(t)
    else
      var n := Least(affected);
      var next :- Republish(t, n, seeds(n));
      PublishAll(next, affected - {n}, seeds)
  }

  /** Operator publication of a new configuration. */
  ghost function PublishDesired(t: Tables, n: NodeId, configuration: Configuration, seed: DesiredUser): Commit {
    if n !in t.nodes then Err(NodeNotFound)
    else if t.nodes[n].status != NodeActive then Err(PublicationConflict(t.nodes[n].status))
    else PublishCompiled(t, n, configuration, seed)
  }

  /** Whether the newest revision already carries the live policy and has not failed. */
  ghost predicate UpToDate(t: Tables, n: NodeId, canary: Canary)
    requires n in t.nodes && t.nodes[n].desired in t.revisions
  {
    var current := t.revisions[t.nodes[n].desired];
    && current.users == CanonicalUsers(MemberUsers(t, Compiled(t, n)) + {canary.identity})
    && canary.identity !in MemberUsers(t, Compiled(t, n))
    && current.members == Compiled(t, n)
    && ResultKey(t.nodes[n].desired, Rejected) !in t.journal
    && ResultKey(t.nodes[n].desired, RolledBack) !in t.journal
  }

  /** Result of a reconciliation: the tables and whether a revision was created. */
  datatype Reconciled = Reconciled(tables: Tables, created: bool)

  ghost function Reconcile(t: Tables, n: NodeId, seed: DesiredUser): Outcome<Reconciled, PlaneError> {
    var configuration :- LatestConfiguration(t, n);
    if DuplicateUser(t, Compiled(t, n)) then Err(StoredValue)
    else
      var canary := CanaryFor(t, n, seed);
      if UpToDate(t, n, canary) then Ok(Reconciled(t.(canaries := t.canaries[n := canary]), false))
      else
        var next :- Publish(t, n, configuration, Compiled(t, n), seed);
        Ok(Reconciled(next, true))
  }

  /** Retire the active canary, create the next generation, republish. */
  ghost function RotateCanary(t: Tables, n: NodeId, seed: DesiredUser): Commit {
    var configuration :- LatestConfiguration(t, n);
    var next := if n in t.canaries
                then Canary(seed, t.canaries[n].generation + 1,
                            t.canaries[n].retired + {t.canaries[n].identity.credential})
                else Canary(seed, 1, {});
    if next.generation > MAX_I64 then Err(RevisionOverflow)
    else if seed.credential in next.retired then Err(ConstraintViolation)
    else PublishCompiled(t.(canaries := t.canaries[n := next]), n, configuration, seed)
  }

  // ----- enrollment and node lifecycle -----

  ghost function Enroll(t: Tables, n: NodeId, xray: bool, agentVersion: string,
                        bootstrap: Option<Configuration>, seed: DesiredUser): Commit
  {
    if n in t.nodes then Err(ConstraintViolation)
    else match bootstrap
      case None => Ok(t.(nodes := t.nodes[n := Node(NodePending, 0, 0, 0, 0, 0, xray, agentVersion)]))
      case Some(configuration) =>
        if !xray then Err(InvalidRequest)
        else Publish(t.(nodes := t.nodes[n := Node(NodeActive, 0, 0, 0, 0, 0, xray, agentVersion)]),
                     n, configuration, {}, seed)
  }

  datatype LifecycleAction = Approve | Disable | Revoke

  function LifecycleTarget(action: LifecycleAction, current: NodeStatus): Option<NodeStatus> {
    match action
    case Approve => if current == NodeRevoked then None else Some(NodeActive)
    case Disable => if current == NodeRevoked then None else Some(NodeDisabled)
    case Revoke => Some(NodeRevoked)
  }

  /** Assignments of a node closed by a lifecycle action. */
  function CloseAssignments(assignments: map<Pair, AssignmentStatus>, n: NodeId, action: LifecycleAction)
    : map<Pair, AssignmentStatus>
  {
    map a | a in assignments ::
      if a.node != n then assignments[a]
      else match action
        case Approve => assignments[a]
        case Disable => if assignments[a] == Enabled then Disabled else assignments[a]
        case Revoke => Deleted
  }

  function RevokeNode(credentials: map<CredentialId, Credential>, n: NodeId): map<CredentialId, Credential> {
    map c | c in credentials ::
      if credentials[c].node == n then credentials[c].(status := Revoked) else credentials[c]
  }

  function Transition(t: Tables, n: NodeId, action: LifecycleAction): Commit {
    if n !in t.nodes then Err(NodeNotFound)
    else match LifecycleTarget(action, t.nodes[n].status)
      case None => Err(NodeLifecycleConflict)
      case Some(target) =>
        var moved := t.(nodes := t.nodes[n := t.nodes[n].(status := target)]);
        if action == Approve then Ok(moved)
        else Ok(moved.(assignments := CloseAssignments(t.assignments, n, action),
                       credentials := RevokeNode(t.credentials, n)))
  }

  // ----- result reports -----

  function Rank(s: ResultState): nat {
    match s
    case Received => 10
    case Validated => 20
    case Applied => 30
    case Rejected => 30
    case RolledBack => 30
  }

  predicate Terminal(s: ResultState) {
    s == Applied || s == Rejected || s == RolledBack
  }

  /** State-dependent fields of a report. */
  predicate ValidResult(r: RevisionResult, revision: nat) {
    && r.startedAt <= r.completedAt
    && match r.state
       case Received => r.digest.None? && r.error.None? && r.rollback.None?
       case Validated => r.digest.Some? && r.error.None? && r.rollback.None?
       case Applied => r.digest.Some? && r.error.None? && r.rollback.None?
       case Rejected => r.error.Some? && r.rollback.None?
       case RolledBack => r.digest.Some? && r.error.Some? && r.rollback.Some? && 0 < r.rollback.value < revision
  }

  /** The highest-ranked record of a revision. */
  function Latest(t: Tables, revision: nat): Option<RevisionResult> {
    if ResultKey(revision, Applied) in t.journal then Some(t.journal[ResultKey(revision, Applied)])
    else if ResultKey(revision, Rejected) in t.journal then Some(t.journal[ResultKey(revision, Rejected)])
    else if ResultKey(revision, RolledBack) in t.journal then Some(t.journal[ResultKey(revision, RolledBack)])
    else if ResultKey(revision, Validated) in t.journal then Some(t.journal[ResultKey(revision, Validated)])
    else if ResultKey(revision, Received) in t.journal then Some(t.journal[ResultKey(revision, Received)])
    else None
  }

  predicate TransitionAllowed(previous: Option<RevisionResult>, next: RevisionResult) {
    || previous.None?
    || previous.value == next
    || (!Terminal(previous.value.state) && Rank(previous.value.state) < Rank(next.state))
  }

  /** Records a report depends on: validation, and for a rollback the restored revision's success. */
  predicate DependenciesMet(t: Tables, n: NodeId, revision: nat, r: RevisionResult) {
    && (r.state == Applied || r.state == RolledBack ==> ResultKey(revision, Validated) in t.journal)
    && (r.state == Applied ==> t.journal[ResultKey(revision, Validated)].digest == r.digest)
    && (r.state == RolledBack ==>
          && r.rollback.Some?
          && r.rollback.value in t.revisions && t.revisions[r.rollback.value].node == n
          && ResultKey(r.rollback.value, Applied) in t.journal
          && t.journal[ResultKey(r.rollback.value, Applied)].digest == r.digest)
  }

  function AdvanceCursors(node: Node, revision: nat, r: RevisionResult): Node {
    var seen := node.(reported := Max(node.reported, revision), received := Max(node.received, revision));
    match r.state
    case Received => seen
    case Rejected => seen
    case Validated => seen.(validated := Max(node.validated, revision))
    case Applied => seen.(validated := Max(node.validated, revision), applied := Max(node.applied, revision))
    case RolledBack => seen.(validated := Max(node.validated, revision),
                             applied := if r.rollback.Some? then r.rollback.value else 0)
  }

  /** Promote or revoke a credential of a node according to the applied snapshot. */
  function Settle(c: Credential, inSnapshot: bool): Credential {
    if c.status == Pending && inSnapshot then c.(status := Active)
    else if (c.status == Active || c.status == Retiring) && !inSnapshot then c.(status := Revoked)
    else c
  }

  function SettleNode(credentials: map<CredentialId, Credential>, n: NodeId, snapshot: set<CredentialId>)
    : map<CredentialId, Credential>
  {
    map c | c in credentials ::
      if credentials[c].node == n then Settle(credentials[c], c in snapshot) else credentials[c]
  }

  function RecordResult(t: Tables, n: NodeId, revision: nat, r: RevisionResult): Commit {
    if revision == 0 || !ValidResult(r, revision) then Err(InvalidResult)
    else if n !in t.nodes || (t.nodes[n].status != NodePending && t.nodes[n].status != NodeActive)
    then Err(NodeIsRevoked)
    else if t.nodes[n].desired != 0 && revision > t.nodes[n].desired then Err(ResultConflict)
    else if revision !in t.revisions || t.revisions[revision].node != n then Err(TargetNotFound)
    else if !TransitionAllowed(Latest(t, revision), r) then Err(ResultConflict)
    else if Latest(t, revision) == Some(r) then Ok(t)
    else if !DependenciesMet(t, n, revision, r) then Err(ResultConflict)
    else
      var node := AdvanceCursors(t.nodes[n], revision, r);
      var recorded := t.(journal := t.journal[ResultKey(revision, r.state) := r], nodes := t.nodes[n := node]);
      if r.state != Applied && r.state != RolledBack then Ok(recorded)
      else if node.applied !in t.revisions then Err(ResultConflict)
      else Ok(recorded.(credentials := SettleNode(t.credentials, n, t.revisions[node.applied].members)))
  }

  // ----- heartbeat progress -----

  datatype Progress = Progress(desired: nat, received: nat, validated: nat, applied: nat)

  /** `desired >= received >= validated >= applied`, with 0 for absent. */
  predicate ConsistentProgress(g: Progress) {
    g.applied <= g.validated <= g.received <= g.desired
  }

  /** A cursor the controller is authoritative for: the report must equal it. */
  function CursorError(stored: nat, reported: nat): Option<PlaneError> {
    if reported == stored then None
    else if reported < stored then Some(ProgressRegressed)
    else Some(ProgressConflict)
  }

  /** The desired cursor may advance, up to the node's own newest revision. */
  function DesiredError(node: Node, targeted: bool, desired: nat): Option<PlaneError> {
    if desired < node.reported then Some(ProgressRegressed)
    else if desired != 0 && (desired > node.desired || !targeted) then Some(ProgressConflict)
    else None
  }

  /** First disagreement between reported and stored progress; `targeted` tells whether the reported
      desired revision is one of the node's. */
  function ProgressError(node: Node, targeted: bool, g: Progress): Option<PlaneError> {
    if DesiredError(node, targeted, g.desired).Some? then DesiredError(node, targeted, g.desired)
    else if CursorError(node.received, g.received).Some? then CursorError(node.received, g.received)
    else if CursorError(node.validated, g.validated).Some? then CursorError(node.validated, g.validated)
    else CursorError(node.applied, g.applied)
  }

  predicate Targeted(t: Tables, n: NodeId, revision: nat) {
    revision in t.revisions && t.revisions[revision].node == n
  }

  /** The node row's part of a heartbeat: progress must agree, and the agent version is stored. */
  function ReportProgress(t: Tables, n: NodeId, g: Progress, version: string): Commit {
    if !ShortText(version, 64) || !ConsistentProgress(g) then Err(InvalidRequest)
    else if n !in t.nodes || (t.nodes[n].status != NodePending && t.nodes[n].status != NodeActive)
    then Err(NodeIsRevoked)
    else match ProgressError(t.nodes[n], Targeted(t, n, g.desired), g)
      case Some(e) => Err(e)
      case None => Ok(t.(nodes := t.nodes[n := t.nodes[n].(reported := g.desired, agentVersion := version)]))
  }

  // ----- credentials of one account -----

  predicate Of(c: Credential, u: UserId, ns: set<NodeId>) {
    c.user == u && c.node in ns
  }

  /** Revoke every credential of the user's assignments on the given nodes. */
  function RevokePairs(credentials: map<CredentialId, Credential>, u: UserId, ns: set<NodeId>)
    : map<CredentialId, Credential>
  {
    map c | c in credentials ::
      if Of(credentials[c], u, ns) then credentials[c].(status := Revoked) else credentials[c]
  }

  function RetireStatus(s: CredentialStatus): CredentialStatus {
    match s
    case Pending => Revoked
    case Active => Retiring
    case Retiring => Retiring
    case Revoked => Revoked
  }

  /** Close live credentials on the given nodes: pending ones are revoked, active ones retire. */
  function RetirePairs(credentials: map<CredentialId, Credential>, u: UserId, ns: set<NodeId>)
    : map<CredentialId, Credential>
  {
    map c | c in credentials ::
      if Of(credentials[c], u, ns) then credentials[c].(status := RetireStatus(credentials[c].status))
          else credentials[c]
  }

  ghost function Versions(credentials: map<CredentialId, Credential>, u: UserId, n: NodeId): set<nat> {
    set c | c in credentials && credentials[c].user == u && credentials[c].node == n :: credentials[c].version
  }

  ghost function NextVersion(credentials: map<CredentialId, Credential>, u: UserId, n: NodeId): nat {
    MaxOf(Versions(credentials, u, n)) + 1
  }

  /** The generated identifiers collide neither with stored ones nor with each other. */
  predicate FreshFor(credentials: map<CredentialId, Credential>, ns: set<NodeId>, ids: NodeId -> CredentialId) {
    && (forall n :: n in ns ==> ids(n) !in credentials)
    && (forall m, n :: m in ns && n in ns && ids(m) == ids(n) ==> m == n)
  }

  /** Issue one pending credential of the next version on each given node. */
  ghost function IssuePairs(credentials: map<CredentialId, Credential>, u: UserId, ns: set<NodeId>,
                            ids: NodeId -> CredentialId): map<CredentialId, Credential>
    requires FreshFor(credentials, ns, ids)
  {
    credentials + map n | n in ns :: ids(n) := Credential(u, n, NextVersion(credentials, u, n), Pending)
  }

  /** Nodes on which the account has an assignment in the given status. */
  function NodesWith(t: Tables, u: UserId, s: AssignmentStatus): set<NodeId> {
    set a | a in t.assignments && a.user == u && t.assignments[a] == s :: a.node
  }

  // ----- account operations -----

  function CreateAccount(t: Tables, u: UserId): Commit {
    if u in t.accounts then Err(ConstraintViolation) else Ok(t.(accounts := t.accounts[u := AccountActive]))
  }

  /** Replace the credential of every enabled assignment by a fresh pending one. */
  ghost function RotateCredentials(t: Tables, u: UserId, ids: NodeId -> CredentialId): Commit {
    var ns := NodesWith(t, u, Enabled);
    if !FreshFor(t.credentials, ns, ids) then Err(ConstraintViolation)
    else Ok(t.(credentials := IssuePairs(RevokePairs(t.credentials, u, ns), u, ns, ids)))
  }

  datatype RotationTrigger = PasswordSet | SessionsReset | ResetTokenConsumed | DeviceRevoked

  /** Password change, session reset, reset-token consumption and device revocation all rotate the
      account's credentials; they differ in the account states they accept. */
  ghost function RotateAccount(t: Tables, u: UserId, trigger: RotationTrigger, ids: NodeId -> CredentialId,
                               seeds: NodeId -> DesiredUser): Commit
  {
    if u !in t.accounts then Err(AccountNotFound)
    else if trigger == ResetTokenConsumed && t.accounts[u] != AccountActive then Err(AccountBlocked)
    else if trigger != DeviceRevoked && t.accounts[u] == AccountDeleted then Err(AccountBlocked)
    else
      var rotated :- RotateCredentials(t, u, ids);
      PublishAll(rotated, NodesWith(t, u, Enabled), seeds)
  }

  /** Nodes to enable: requested, and not assigned yet or disabled. */
  function ToEnable(t: Tables, u: UserId, requested: set<NodeId>): set<NodeId> {
    set n | n in requested && (Pair(u, n) !in t.assignments || t.assignments[Pair(u, n)] == Disabled) :: n
  }

  function ToDisable(t: Tables, u: UserId, requested: set<NodeId>): set<NodeId> {
    NodesWith(t, u, Enabled) - requested
  }

  function Reassign(assignments: map<Pair, AssignmentStatus>, u: UserId, enable: set<NodeId>, disable: set<NodeId>)
    : map<Pair, AssignmentStatus>
  {
    assignments + (map n | n in enable :: Pair(u, n) := Enabled) + (map n | n in disable :: Pair(u, n) := Disabled)
  }

  /** Requested nodes that are missing or not active. */
  function Unassignable(t: Tables, requested: set<NodeId>): set<NodeId> {
    set n | n in requested && (n !in t.nodes || t.nodes[n].status != NodeActive) :: n
  }

  ghost function ReplacedTables(t: Tables, u: UserId, enable: set<NodeId>, disable: set<NodeId>,
                                ids: NodeId -> CredentialId): Tables
    requires FreshFor(t.credentials, enable, ids)
  {
    t.(assignments := Reassign(t.assignments, u, enable, disable),
       credentials := RetirePairs(IssuePairs(RevokePairs(t.credentials, u, enable), u, enable, ids), u, disable))
  }

  /** Why the enabling loop stops: at the lowest deleted assignment, unless an identifier collides before it. */
  ghost function EnablingError(t: Tables, u: UserId, requested: set<NodeId>, ids: NodeId -> CredentialId): PlaneError {
    var deleted := requested * NodesWith(t, u, Deleted);
    if deleted != {} && FreshFor(t.credentials, Below(ToEnable(t, u, requested), Least(deleted)), ids)
    then AssignmentConflict(Least(deleted))
    else ConstraintViolation
  }

  function Below(ns: set<NodeId>, bound: NodeId): set<NodeId> {
    set n | n in ns && n < bound
  }

  ghost function ReplaceNodes(t: Tables, u: UserId, requested: set<NodeId>, ids: NodeId -> CredentialId,
                              seeds: NodeId -> DesiredUser): Commit
  {
    if |requested| > 100 then Err(InvalidRequest)
    else if u !in t.accounts then Err(AccountNotFound)
    else if t.accounts[u] != AccountActive then Err(AccountLifecycleConflict)
    else if Unassignable(t, requested) != {}
    then
      var n := Least(Unassignable(t, requested));
      if n !in t.nodes then Err(NodeNotFound) else Err(NodeUnavailable(n))
    else
      var enable := ToEnable(t, u, requested);
      var disable := ToDisable(t, u, requested);
      if requested * NodesWith(t, u, Deleted) != {} || !FreshFor(t.credentials, enable, ids)
      then Err(EnablingError(t, u, requested, ids))
      else PublishAll(ReplacedTables(t, u, enable, disable, ids), enable + disable, seeds)
  }

  /** Enabled assignments of the account whose node is active. */
  function PublishableNodes(t: Tables, u: UserId): set<NodeId> {
    set n | n in NodesWith(t, u, Enabled) && n in t.nodes && t.nodes[n].status == NodeActive :: n
  }

  function RevokeUser(credentials: map<CredentialId, Credential>, u: UserId): map<CredentialId, Credential> {
    map c | c in credentials ::
      if credentials[c].user == u then credentials[c].(status := Revoked) else credentials[c]
  }

  function DeleteAssignments(assignments: map<Pair, AssignmentStatus>, u: UserId): map<Pair, AssignmentStatus> {
    map a | a in assignments :: if a.user == u then Deleted else assignments[a]
  }

  ghost function ApplyStatus(t: Tables, u: UserId, requested: AccountStatus, ids: NodeId -> CredentialId): Commit {
    var marked := t.(accounts := t.accounts[u := requested]);
    match requested
    case AccountActive => RotateCredentials(marked, u, ids)
    case AccountDisabled => Ok(marked.(credentials := RetirePairs(t.credentials, u, NodesWith(t, u, Enabled))))
    case AccountDeleted => Ok(marked.(assignments := DeleteAssignments(t.assignments, u),
                                      credentials := RevokeUser(t.credentials, u)))
  }

  ghost function SetStatus(t: Tables, u: UserId, requested: AccountStatus, ids: NodeId -> CredentialId,
                           seeds: NodeId -> DesiredUser): Commit
  {
    if u !in t.accounts then Err(AccountNotFound)
    else if t.accounts[u] == AccountDeleted && requested != AccountDeleted then Err(AccountLifecycleConflict)
    else if t.accounts[u] == requested then Ok(t)
    else
      var changed :- ApplyStatus(t, u, requested, ids);
      PublishAll(changed, PublishableNodes(t, u), seeds)
  }

  // ----- operator rollback -----

  predicate TargetLeq(a: RollbackTarget, b: RollbackTarget) {
    || a.node < b.node
    || (a.node == b.node && (a.source < b.source || (a.source == b.source && a.failed <= b.failed)))
  }

  /** A cohort of 1 to 100 distinct nodes, each with a source that precedes the failed revision. */
  predicate ValidTargets(targets: seq<RollbackTarget>) {
    && 0 < |targets| <= 100
    && (forall i :: 0 <= i < |targets| ==> 0 < targets[i].source < targets[i].failed)
    && (forall i, j :: 0 <= i < j < |targets| ==> targets[i].node != targets[j].node)
  }

  /** Checks of one cohort member; the result is the configuration of its source revision. */
  function PrepareTarget(t: Tables, g: RollbackTarget): Outcome<Configuration, PlaneError> {
    if g.node !in t.nodes then Err(NodeNotFound)
    else
      var node := t.nodes[g.node];
      if node.status != NodeActive || node.desired != g.failed then Err(RollbackInvalid)
      else if !node.xray then Err(RollbackIncompatible)
      else if g.source !in t.revisions || t.revisions[g.source].node != g.node then Err(RollbackInvalid)
      else if ResultKey(g.source, Validated) !in t.journal || ResultKey(g.source, Applied) !in t.journal
      then Err(RollbackInvalid)
      else if Latest(t, g.failed).None?
           || (Latest(t, g.failed).value.state != Rejected && Latest(t, g.failed).value.state != RolledBack)
      then Err(RollbackInvalid)
      else if !AgentVersionSatisfies(node.agentVersion, t.revisions[g.source].configuration.minAgentVersion)
      then Err(RollbackIncompatible)
      else Ok(t.revisions[g.source].configuration)
  }

  /** First failing check of the cohort, in order. */
  function PrepareAll(t: Tables, targets: seq<RollbackTarget>): Outcome<seq<Configuration>, PlaneError> {
    if targets == [] then Ok([])
    else
      var first :- PrepareTarget(t, targets[0]);
      var rest :- PrepareAll(t, targets[1..]);
      Ok([first] + rest)
  }

  datatype RolledOut = RolledOut(tables: Tables, publications: seq<RollbackPublication>)

  ghost function PublishTargets(t: Tables, targets: seq<RollbackTarget>, configurations: seq<Configuration>,
                                seeds: NodeId -> DesiredUser): Outcome<RolledOut, PlaneError>
    requires |targets| == |configurations|
    decreases |targets|
  {
    if targets == [] then Ok(RolledOut(t, []))
    else
      var next :- PublishCompiled(t, targets[0].node, configurations[0], seeds(targets[0].node));
      var rest :- PublishTargets(next, targets[1..], configurations[1..], seeds);
      Ok(RolledOut(rest.tables,
                   [RollbackPublication(targets[0].node, targets[0].source, targets[0].failed, next.last)]
                   + rest.publications))
  }

  ghost function OperatorRollback(t: Tables, key: RollbackKey, targets: seq<RollbackTarget>, reason: RollbackReason,
                                  seeds: NodeId -> DesiredUser): Outcome<RolledOut, PlaneError>
  {
    if !ValidTargets(targets) then Err(InvalidRequest)
    else
      var ordered := Sort(TargetLeq, targets);
      if key in t.replays then
        if t.replays[key].targets != ordered || t.replays[key].reason != reason then Err(KeyConflict)
        else Ok(RolledOut(t, t.replays[key].response))
      else
        var configurations :- PrepareAll(t, ordered);
        if |configurations| != |ordered| then Err(StoredValue)
        else
          var out :- PublishTargets(t, ordered, configurations, seeds);
          Ok(RolledOut(out.tables.(replays := out.tables.replays[key :=
              RollbackRecord(ordered, reason, out.publications)]),
                       out.publications))
  }
}
