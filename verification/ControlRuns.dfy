/** Runs of the control plane: every committed step keeps the invariants and only ever extends the
    history, so both hold in every state reachable from the empty database. */
module ControlRuns {
  import opened Domain
  import opened Ordering
  import opened DesiredState
  import opened Plane
  import opened RevisionLog
  import opened Credentials
  import opened Publication
  import opened Accounts
  import opened Nodes
  import opened Operator
  import opened Rollback

  datatype Step =
    | DoCreateAccount(user: UserId)
    | DoEnroll(node: NodeId, xray: bool, agentVersion: string, bootstrap: Option<Configuration>, seed: DesiredUser)
    | DoTransition(node: NodeId, action: LifecycleAction)
    | DoPublish(node: NodeId, configuration: Configuration, seed: DesiredUser)
    | DoReconcile(node: NodeId, seed: DesiredUser)
    | DoRotateCanary(node: NodeId, seed: DesiredUser)
    | DoRollback(key: RollbackKey, targets: seq<RollbackTarget>, reason: RollbackReason, seeds: NodeId -> DesiredUser)
    | DoRecord(node: NodeId, revision: nat, result: RevisionResult)
    | DoReport(node: NodeId, progress: Progress, version: string)
    | DoReplaceNodes(user: UserId, requested: set<NodeId>, ids: NodeId -> CredentialId, seeds: NodeId -> DesiredUser)
    | DoSetStatus(user: UserId, status: AccountStatus, ids: NodeId -> CredentialId, seeds: NodeId -> DesiredUser)
    | DoRotateAccount(user: UserId, trigger: RotationTrigger, ids: NodeId -> CredentialId, seeds: NodeId -> DesiredUser)

  ghost function Commits(t: Tables, step: Step): Commit {
    match step
    case DoCreateAccount(u) => CreateAccount(t, u)
    case DoEnroll(n, xray, version, bootstrap, seed) => Enroll(t, n, xray, version, bootstrap, seed)
    case DoTransition(n, action) => Transition(t, n, action)
    case DoPublish(n, configuration, seed) => PublishDesired(t, n, configuration, seed)
    case DoReconcile(n, seed) =>
      (match Reconcile(t, n, seed)
       case Ok(out) => Ok(out.tables)
       case Err(e) => Err(e))
    case DoRotateCanary(n, seed) => RotateCanary(t, n, seed)
    case DoRollback(key, targets, reason, seeds) =>
      (match OperatorRollback(t, key, targets, reason, seeds)
       case Ok(out) => Ok(out.tables)
       case Err(e) => Err(e))
    case DoRecord(n, revision, result) => RecordResult(t, n, revision, result)
    case DoReport(n, progress, version) => ReportProgress(t, n, progress, version)
    case DoReplaceNodes(u, requested, ids, seeds) => ReplaceNodes(t, u, requested, ids, seeds)
    case DoSetStatus(u, status, ids, seeds) => SetStatus(t, u, status, ids, seeds)
    case DoRotateAccount(u, trigger, ids, seeds) => RotateAccount(t, u, trigger, ids, seeds)
  }

  /** An aborted step leaves the tables as they were. */
  ghost function After(t: Tables, step: Step): Tables {
    match Commits(t, step)
    case Ok(q) => q
    case Err(_) => t
  }

  ghost function Run(t: Tables, steps: seq<Step>): Tables
    decreases |steps|
  {
    if steps == [] then t else Run(After(t, steps[0]), steps[1..])
  }

  // ----- history only grows -----

  ghost predicate NodeAdvances(a: Node, b: Node) {
    && (a.status == NodeRevoked ==> b.status == NodeRevoked)
    && a.desired <= b.desired && a.reported <= b.reported && a.received <= b.received && a.validated <= b.validated
  }

  ghost predicate NodesGrow(t: Tables, q: Tables) {
    forall n :: n in t.nodes ==> n in q.nodes && NodeAdvances(t.nodes[n], q.nodes[n])
  }

  ghost predicate JournalGrows(t: Tables, q: Tables) {
    forall k :: k in t.journal ==> k in q.journal && q.journal[k] == t.journal[k]
  }

  ghost predicate ReplaysGrow(t: Tables, q: Tables) {
    forall k :: k in t.replays ==> k in q.replays && q.replays[k] == t.replays[k]
  }

  ghost predicate CanariesGrow(t: Tables, q: Tables) {
    forall n :: n in t.canaries ==> n in q.canaries && t.canaries[n].generation <= q.canaries[n].generation
  }

  /** Deleted accounts stay deleted. */
  ghost predicate AccountsGrow(t: Tables, q: Tables) {
    forall u :: u in t.accounts ==>
          u in q.accounts && (t.accounts[u] == AccountDeleted ==> q.accounts[u] == AccountDeleted)
  }

  ghost predicate Grows(t: Tables, q: Tables) {
    && t.last <= q.last
    && RevisionsKept(t, q) && JournalGrows(t, q) && ReplaysGrow(t, q)
    && Advances(t.credentials, q.credentials)
    && NodesGrow(t, q) && CanariesGrow(t, q) && AccountsGrow(t, q)
  }

  lemma GrowsReflexive(t: Tables)
    ensures Grows(t, t)
  {
  }

  lemma GrowsTransitive(t: Tables, m: Tables, q: Tables)
    requires Grows(t, m) && Grows(m, q)
    ensures Grows(t, q)
  {
    AdvancesTransitive(t.credentials, m.credentials, q.credentials);
    hide Advances;
    forall n | n in t.nodes ensures n in q.nodes && NodeAdvances(t.nodes[n], q.nodes[n]) {
      assert NodeAdvances(t.nodes[n], m.nodes[n]) && NodeAdvances(m.nodes[n], q.nodes[n]);
    }
  }

  lemma AdvancesTransitive(a: CredentialTable, b: CredentialTable, c: CredentialTable)
    requires Advances(a, b) && Advances(b, c)
    ensures Advances(a, c)
  {
  }

  // ----- publication steps grow the history -----

  lemma PublishedGrows(t: Tables, q: Tables, ns: set<NodeId>)
    requires Inv(t) && Published(t, q, ns)
    ensures Grows(t, q)
  {
    hide Inv, CarriesPolicy, NewestOfItsNode;
    NodesAreBounded(t);
    AdvancesReflexive(t.credentials);
    forall n | n in t.nodes ensures n in q.nodes && NodeAdvances(t.nodes[n], q.nodes[n]) {
      if n in ns {
        assert Republished(t, q, n);
      }
    }
  }

  lemma NodesAreBounded(t: Tables)
    requires Inv(t)
    ensures forall n :: n in t.nodes ==> t.nodes[n].desired <= t.last
  {
  }

  lemma AccountChangeGrows(t: Tables, c: Tables, q: Tables, ns: set<NodeId>)
    requires AccountChange(t, c, q, ns)
    ensures Grows(t, q)
  {
    hide Inv, Published, Closes, Advances, Compiled;
    ClosesAdvances(t.credentials, c.credentials);
    PublishedGrows(c, q, ns);
    assert Grows(t, c);
    hide Grows;
    GrowsTransitive(t, c, q);
  }

  lemma CarriesGrows(t: Tables, q: Tables, n: NodeId, configuration: Configuration)
    requires NewestCarries(t, q, n, configuration)
    requires CanariesGrow(t, q)
    ensures Grows(t, q)
  {
  }

  lemma PublishCompiledCanaries(t: Tables, n: NodeId, configuration: Configuration, seed: DesiredUser, q: Tables)
    requires PublishCompiled(t, n, configuration, seed) == Ok(q)
    ensures CanariesGrow(t, q)
  {
  }

  lemma PublishCompiledGrows(t: Tables, n: NodeId, configuration: Configuration, seed: DesiredUser, q: Tables)
    requires Inv(t) && PublishCompiled(t, n, configuration, seed) == Ok(q)
    ensures Grows(t, q)
  {
    hide Inv, PublishCompiled, NewestCarries, CanariesGrow, Grows;
    PublishCompiledKeeps(t, n, configuration, seed, q);
    PublishCompiledCanaries(t, n, configuration, seed, q);
    CarriesGrows(t, q, n, configuration);
  }

  // ----- every step keeps the invariants and grows the history -----

  lemma PublishStepKeeps(t: Tables, n: NodeId, configuration: Configuration, seed: DesiredUser, q: Tables)
    requires Inv(t) && PublishDesired(t, n, configuration, seed) == Ok(q)
    ensures Inv(q) && Grows(t, q)
  {
    hide Inv, PublishCompiled, NewestCarries, Grows;
    PublishDesiredKeeps(t, n, configuration, seed, q);
    PublishCompiledGrows(t, n, configuration, seed, q);
  }

  lemma ReconcileStepKeeps(t: Tables, n: NodeId, seed: DesiredUser, out: Reconciled)
    requires Inv(t) && Reconcile(t, n, seed) == Ok(out)
    ensures Inv(out.tables) && Grows(t, out.tables)
  {
    hide Inv, Reconcile, Reconciles, PublishCompiled, Grows;
    ReconcileCorrect(t, n, seed, out);
    ReconcileCases(t, n, seed, out);
    if Reconciles(t, n) {
      GrowsReflexive(t);
    } else {
      PublishCompiledGrows(t, n, t.revisions[t.nodes[n].desired].configuration, seed, out.tables);
    }
  }

  lemma RotateCanaryStepKeeps(t: Tables, n: NodeId, seed: DesiredUser, q: Tables)
    requires Inv(t) && RotateCanary(t, n, seed) == Ok(q)
    ensures Inv(q) && Grows(t, q)
  {
    hide Inv, RotateCanary, PublishCompiled, Compiled, Grows;
    RotateCanaryUnfolds(t, n, seed, q);
    RotateCanaryKeeps(t, n, seed, q);
    var next := Canary(seed, t.canaries[n].generation + 1, t.canaries[n].retired + {t.canaries[n].identity.credential});
    var c := t.(canaries := t.canaries[n := next]);
    CanaryChangeKeepsInv(t, n, next);
    PublishCompiledGrows(c, n, t.revisions[t.nodes[n].desired].configuration, seed, q);
    NewCanaryGrows(t, n, next);
    GrowsTransitive(t, c, q);
  }

  lemma NewCanaryGrows(t: Tables, n: NodeId, next: Canary)
    requires n in t.canaries && t.canaries[n].generation <= next.generation
    ensures Grows(t, t.(canaries := t.canaries[n := next]))
  {
  }

  lemma RotateCanaryUnfolds(t: Tables, n: NodeId, seed: DesiredUser, q: Tables)
    requires Inv(t) && RotateCanary(t, n, seed) == Ok(q)
    ensures n in t.canaries && n in t.nodes && t.nodes[n].desired in t.revisions
    ensures var next := Canary(seed, t.canaries[n].generation + 1, t.canaries[n].retired
            + {t.canaries[n].identity.credential});
            PublishCompiled(t.(canaries := t.canaries[n := next]), n, t.revisions[t.nodes[n].desired].configuration,
                seed) == Ok(q)
  {
    hide Inv, PublishCompiled;
    CanaryKnown(t, n, seed);
  }

  lemma {:induction false} PublishTargetsGrows(t: Tables, targets: seq<RollbackTarget>,
                                               configurations: seq<Configuration>,
                                               seeds: NodeId -> DesiredUser, out: RolledOut)
    requires Inv(t) && |targets| == |configurations|
    requires PublishTargets(t, targets, configurations, seeds) == Ok(out)
    ensures Grows(t, out.tables)
    decreases |targets|
  {
    hide Inv, PublishCompiled, NewestCarries, Grows;
    if targets == [] {
      GrowsReflexive(t);
    } else {
      var n := targets[0].node;
      var m := PublishCompiled(t, n, configurations[0], seeds(n)).value;
      PublishCompiledKeeps(t, n, configurations[0], seeds(n), m);
      PublishCompiledGrows(t, n, configurations[0], seeds(n), m);
      PublishTargetsGrows(m, targets[1..], configurations[1..], seeds,
          PublishTargets(m, targets[1..], configurations[1..], seeds).value);
      GrowsTransitive(t, m, out.tables);
    }
  }

  lemma ReplayAddedGrows(t: Tables, key: RollbackKey, record: RollbackRecord, m: Tables)
    requires Grows(t, m) && key !in t.replays
    ensures Grows(t, m.(replays := m.replays[key := record]))
  {
  }

  lemma RollbackStepKeeps(t: Tables, key: RollbackKey, targets: seq<RollbackTarget>, reason: RollbackReason,
                          seeds: NodeId -> DesiredUser, out: RolledOut)
    requires Inv(t) && OperatorRollback(t, key, targets, reason, seeds) == Ok(out)
    ensures Inv(out.tables) && Grows(t, out.tables)
  {
    hide Inv, OperatorRollback, PrepareAll, PublishTargets, Grows;
    RollbackKeepsInv(t, key, targets, reason, seeds, out);
    if key in t.replays {
      RollbackCases(t, key, targets, reason, seeds, out);
      GrowsReflexive(t);
    } else {
      RollbackUnfolds(t, key, targets, reason, seeds, out);
      var ordered := Sort(TargetLeq, targets);
      var published := PublishTargets(t, ordered, PrepareAll(t, ordered).value, seeds).value;
      PublishTargetsGrows(t, ordered, PrepareAll(t, ordered).value, seeds, published);
      ReplayAddedGrows(t, key, RollbackRecord(ordered, reason, out.publications), published.tables);
    }
  }

  lemma RollbackCases(t: Tables, key: RollbackKey, targets: seq<RollbackTarget>, reason: RollbackReason,
                      seeds: NodeId -> DesiredUser, out: RolledOut)
    requires OperatorRollback(t, key, targets, reason, seeds) == Ok(out) && key in t.replays
    ensures out.tables == t
  {
  }

  lemma EnrollStepKeeps(t: Tables, n: NodeId, xray: bool, agentVersion: string, bootstrap: Option<Configuration>,
                        seed: DesiredUser, q: Tables)
    requires Inv(t) && Enroll(t, n, xray, agentVersion, bootstrap, seed) == Ok(q)
    ensures Inv(q) && Grows(t, q)
  {
    hide Inv, Enroll, RevisionsKept, Advances;
    EnrollKeepsInv(t, n, xray, agentVersion, bootstrap, seed, q);
    EnrolledRevisions(t, n, xray, agentVersion, bootstrap, seed, q);
    EnrolledTables(t, n, xray, agentVersion, bootstrap, seed, q);
    AdvancesReflexive(t.credentials);
  }

  lemma EnrolledTables(t: Tables, n: NodeId, xray: bool, agentVersion: string, bootstrap: Option<Configuration>,
                       seed: DesiredUser, q: Tables)
    requires Enroll(t, n, xray, agentVersion, bootstrap, seed) == Ok(q)
    ensures q.journal == t.journal && q.replays == t.replays && q.accounts == t.accounts && t.last <= q.last
    ensures forall m :: m in t.nodes ==> m in q.nodes && q.nodes[m] == t.nodes[m]
    ensures forall m :: m in t.canaries ==> m in q.canaries && q.canaries[m] == t.canaries[m]
  {
    hide CanonicalUsers, CanonicalConfiguration, AcceptableUsers, ValidConfiguration;
  }

  lemma EnrolledRevisions(t: Tables, n: NodeId, xray: bool, agentVersion: string, bootstrap: Option<Configuration>,
                          seed: DesiredUser, q: Tables)
    requires Inv(t) && Enroll(t, n, xray, agentVersion, bootstrap, seed) == Ok(q)
    ensures RevisionsKept(t, q)
  {
    hide Inv, CanonicalUsers, CanonicalConfiguration, AcceptableUsers, ValidConfiguration, MemberUsers;
    NextIsNew(t);
  }

  lemma NextIsNew(t: Tables)
    requires Inv(t)
    ensures t.last + 1 !in t.revisions
  {
  }

  lemma RecordStepKeeps(t: Tables, n: NodeId, revision: nat, r: RevisionResult, q: Tables)
    requires Inv(t) && RecordResult(t, n, revision, r) == Ok(q)
    ensures Inv(q) && Grows(t, q)
  {
    hide Inv, RecordResult, Advances, LogInv;
    RecordKeepsInv(t, n, revision, r, q);
    if q == t {
      GrowsReflexive(t);
    } else {
      RecordCases(t, n, revision, r, q);
      InvLog(t);
      RecordAppends(t, n, revision, r, q);
    }
  }

  lemma RecordAppends(t: Tables, n: NodeId, revision: nat, r: RevisionResult, q: Tables)
    requires LogInv(t) && RecordResult(t, n, revision, r) == Ok(q) && q != t
    ensures JournalGrows(t, q) && ResultKey(revision, r.state) in q.journal
  {
    hide LogInv, RecordResult, JournalSound, ValidResult, DependenciesMet, AdvanceCursors;
    LogJournal(t);
    RecordResultRecords(t, n, revision, r, q);
  }

  lemma LogJournal(t: Tables)
    requires LogInv(t)
    ensures JournalSound(t)
  {
  }

  lemma TransitionStepKeeps(t: Tables, n: NodeId, action: LifecycleAction, q: Tables)
    requires Inv(t) && Transition(t, n, action) == Ok(q)
    ensures Inv(q) && Grows(t, q)
  {
    hide Inv, RevokeNode, CloseAssignments, Closes, Advances;
    TransitionKeepsInv(t, n, action, q);
    ClosesAdvances(t.credentials, q.credentials);
  }

  lemma ReportStepKeeps(t: Tables, n: NodeId, g: Progress, version: string, q: Tables)
    requires Inv(t) && ReportProgress(t, n, g, version) == Ok(q)
    ensures Inv(q) && Grows(t, q)
  {
    hide Inv, Advances;
    ReportKeepsInv(t, n, g, version, q);
    AdvancesReflexive(t.credentials);
  }

  lemma CreateAccountKeeps(t: Tables, u: UserId, q: Tables)
    requires Inv(t) && CreateAccount(t, u) == Ok(q)
    ensures Inv(q) && Grows(t, q)
  {
    hide Inv, AccountsSound, Advances, Closes;
    InvIsSound(t);
    NewAccountSound(t, u, q);
    AdvancesReflexive(t.credentials);
    ClosesNothing(t.credentials);
    ChangeKeepsInv(t, q);
  }

  lemma NewAccountSound(t: Tables, u: UserId, q: Tables)
    requires AccountsSound(t) && CreateAccount(t, u) == Ok(q)
    ensures AccountsSound(q)
  {
  }

  lemma ReplaceNodesStepKeeps(t: Tables, u: UserId, requested: set<NodeId>, ids: NodeId -> CredentialId,
                              seeds: NodeId -> DesiredUser, q: Tables)
    requires Inv(t) && ReplaceNodes(t, u, requested, ids, seeds) == Ok(q)
    ensures Inv(q) && Grows(t, q) && PolicyPublished(t, q)
  {
    hide Inv, ReplaceNodes, AccountChange, Grows, PolicyPublished;
    var c := ReplaceNodesChanges(t, u, requested, ids, seeds, q);
    AccountChangePublishes(t, c, q, ToEnable(t, u, requested) + ToDisable(t, u, requested));
    AccountChangeGrows(t, c, q, ToEnable(t, u, requested) + ToDisable(t, u, requested));
  }

  lemma SetStatusStepKeeps(t: Tables, u: UserId, requested: AccountStatus, ids: NodeId -> CredentialId,
                           seeds: NodeId -> DesiredUser, q: Tables)
    requires Inv(t) && SetStatus(t, u, requested, ids, seeds) == Ok(q)
    ensures Inv(q) && Grows(t, q) && PolicyPublished(t, q)
  {
    hide Inv, ApplyStatus, PublishAll, AccountChange, Grows;
    if t.accounts[u] != requested {
      var c := SetStatusChanges(t, u, requested, ids, seeds, q);
      AccountChangePublishes(t, c, q, NodesWith(t, u, Enabled));
      AccountChangeGrows(t, c, q, NodesWith(t, u, Enabled));
    } else {
      GrowsReflexive(t);
    }
  }

  lemma RotateAccountStepKeeps(t: Tables, u: UserId, trigger: RotationTrigger, ids: NodeId -> CredentialId,
                               seeds: NodeId -> DesiredUser, q: Tables)
    requires Inv(t) && RotateAccount(t, u, trigger, ids, seeds) == Ok(q)
    ensures Inv(q) && Grows(t, q) && PolicyPublished(t, q)
  {
    hide Inv, RotateAccount, AccountChange, Grows, PolicyPublished;
    var c := RotateAccountChanges(t, u, trigger, ids, seeds, q);
    AccountChangePublishes(t, c, q, NodesWith(t, u, Enabled));
    AccountChangeGrows(t, c, q, NodesWith(t, u, Enabled));
  }

  // ----- all runs -----

  lemma EveryStepKeeps(t: Tables, step: Step)
    requires Inv(t)
    ensures Inv(After(t, step)) && Grows(t, After(t, step))
  {
    hide Inv, Grows, CreateAccount, Enroll, Transition, PublishDesired, Reconcile, RotateCanary, OperatorRollback,
         RecordResult, ReportProgress, ReplaceNodes, SetStatus, RotateAccount, PolicyPublished;
    match Commits(t, step) {
      case Err(_) => GrowsReflexive(t);
      case Ok(q) =>
        match step {
          case DoCreateAccount(u) => CreateAccountKeeps(t, u, q);
          case DoEnroll(n, xray, version, bootstrap, seed) => EnrollStepKeeps(t, n, xray, version, bootstrap, seed, q);
          case DoTransition(n, action) => TransitionStepKeeps(t, n, action, q);
          case DoPublish(n, configuration, seed) => PublishStepKeeps(t, n, configuration, seed, q);
          case DoReconcile(n, seed) => ReconcileStepKeeps(t, n, seed, Reconcile(t, n, seed).value);
          case DoRotateCanary(n, seed) => RotateCanaryStepKeeps(t, n, seed, q);
          case DoRollback(key, targets, reason, seeds) =>
            RollbackStepKeeps(t, key, targets, reason, seeds, OperatorRollback(t, key, targets, reason, seeds).value);
          case DoRecord(n, revision, result) => RecordStepKeeps(t, n, revision, result, q);
          case DoReport(n, progress, version) => ReportStepKeeps(t, n, progress, version, q);
          case DoReplaceNodes(u, requested, ids, seeds) => ReplaceNodesStepKeeps(t, u, requested, ids, seeds, q);
          case DoSetStatus(u, status, ids, seeds) => SetStatusStepKeeps(t, u, status, ids, seeds, q);
          case DoRotateAccount(u, trigger, ids, seeds) => RotateAccountStepKeeps(t, u, trigger, ids, seeds, q);
        }
    }
  }

  lemma {:induction false} RunKeeps(t: Tables, steps: seq<Step>)
    requires Inv(t)
    ensures Inv(Run(t, steps)) && Grows(t, Run(t, steps))
    decreases |steps|
  {
    hide Inv, Grows, After;
    if steps == [] {
      GrowsReflexive(t);
    } else {
      var m := After(t, steps[0]);
      EveryStepKeeps(t, steps[0]);
      RunKeeps(m, steps[1..]);
      GrowsTransitive(t, m, Run(t, steps));
    }
  }

  lemma EmptyIsInvariant()
    ensures Inv(EmptyTables)
  {
  }

  /** Every state reachable from the empty database satisfies the invariants. */
  lemma Reachable(steps: seq<Step>)
    ensures Inv(Run(EmptyTables, steps))
  {
    hide Inv, Run;
    EmptyIsInvariant();
    RunKeeps(EmptyTables, steps);
  }
}
