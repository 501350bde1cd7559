/** The control database as the server holds it: one mutable row set per table, changed statement by
    statement inside a transaction.  Every public operation is proved to have exactly the effect of the
    corresponding atomic step, to leave the tables untouched when it fails, and to keep the invariant. */
module ControlDatabase {
  import opened Domain
  import opened Ordering
  import opened DesiredState
  import opened AgentVersion
  import opened Plane
  import opened DocumentRows
  import opened RevisionLog
  import opened Credentials
  import opened Publication
  import opened Accounts
  import opened Rollback
  import opened Operator
  import opened ControlRuns
  import opened ReissueLoops

  datatype Done = Done

  type Reply = Outcome<Done, PlaneError>

  /** Inside a transaction: the same error, or the same tables. */
  ghost predicate Agrees(spec: Commit, after: Tables, r: Reply) {
    match spec
    case Ok(t) => r == Ok(Done) && after == t
    case Err(e) => r == Err(e)
  }

  /** The reply and the tables agree with the step: commit everything or nothing, with the step's error. */
  ghost predicate Committed(spec: Commit, before: Tables, after: Tables, r: Reply) {
    Agrees(spec, after, r) && (r.Err? ==> after == before)
  }

  class ControlDatabase {
    var last: nat
    var nodes: map<NodeId, Node>
    var revisions: map<nat, Revision>
    var journal: map<ResultKey, RevisionResult>
    var accounts: map<UserId, AccountStatus>
    var assignments: map<Pair, AssignmentStatus>
    var credentials: map<CredentialId, Credential>
    var canaries: map<NodeId, Canary>
    var replays: map<RollbackKey, RollbackRecord>

    function View(): Tables
      reads this
    {
      Tables(last, nodes, revisions, journal, accounts, assignments, credentials, canaries, replays)
    }

    ghost predicate Valid()
      reads this
    {
      Inv(View())
    }

    constructor ()
      ensures Valid() && View() == EmptyTables
    {
      last, nodes, revisions, journal := 0, map[], map[], map[];
      accounts, assignments, credentials := map[], map[], map[];
      canaries, replays := map[], map[];
      new;
      EmptyIsInvariant();
    }

    /** Abort: give back the tables as they were when the transaction began. */
    method Rollback(t: Tables)
      modifies this
      ensures View() == t
    {
      last, nodes, revisions, journal := t.last, t.nodes, t.revisions, t.journal;
      accounts, assignments, credentials := t.accounts, t.assignments, t.credentials;
      canaries, replays := t.canaries, t.replays;
    }

    // ----- publication -----

    /** One row per member of the node's policy; a second row for a user is refused. */
    method CompileDesiredUsers(n: NodeId) returns (r: Outcome<seq<DesiredUser>, PlaneError>)
      ensures r.Err? <==> DuplicateUser(View(), Compiled(View(), n))
      ensures r.Err? ==> r.error == StoredValue
      ensures r.Ok? ==> multiset(r.value) == multiset(MemberUsers(View(), Compiled(View(), n)))
    {
      ghost var t := View();
      var members := Compiled(View(), n);
      var todo := members;
      var users: seq<DesiredUser> := [];
      var seen: set<UserId> := {};
      assert members - todo == {} && MemberUsers(t, {}) == {} && Collected(t, {}, users, seen);
      hide Compiled, MemberUsers, DuplicateUser, Collected;
      while todo != {}
        invariant todo <= members
        invariant Collected(t, members - todo, users, seen)
      {
        var c :| c in todo;
        var user := credentials[c].user;
        CollectNext(t, members - todo, users, seen, c);
        assert members - (todo - {c}) == members - todo + {c};
        if user in seen {
          DuplicateIsMonotone(t, members - todo + {c}, members);
          return Err(StoredValue);
        }
        users := users + [DesiredUser(user, c)];
        seen := seen + {user};
        todo := todo - {c};
      }
      CollectedAll(t, members, todo, users, seen);
      return Ok(users);
    }

    /** The active canary of the node, created at generation 1 when there is none. */
    method EnsureCanary(n: NodeId, seed: DesiredUser) returns (canary: Canary)
      modifies this`canaries
      ensures canary == CanaryFor(old(View()), n, seed)
      ensures canaries == old(canaries)[n := canary]
    {
      if n in canaries {
        canary := canaries[n];
      } else {
        canary := Canary(seed, 1, {});
      }
      canaries := canaries[n := canary];
    }

    /** The credential column of the snapshot rows, inserted one by one. */
    static method MemberSnapshot(users: seq<DesiredUser>) returns (snapshot: set<CredentialId>)
      ensures snapshot == set x | x in users :: x.credential
    {
      snapshot := {};
      for i := 0 to |users|
        invariant snapshot == set x | x in users[..i] :: x.credential
      {
        assert users[..i + 1] == users[..i] + [users[i]];
        snapshot := snapshot + {users[i].credential};
      }
      assert users[..|users|] == users;
    }

    /** Build, store and snapshot the next revision, then move the node and network cursors. */
    method PublishCompiledDesiredState(n: NodeId, configuration: Configuration, users: seq<DesiredUser>,
                                       ghost members: set<CredentialId>, seed: DesiredUser) returns (r: Reply)
      requires members <= credentials.Keys && !DuplicateUser(View(), members)
      requires multiset(users) == multiset(MemberUsers(View(), members))
      modifies this`last, this`nodes, this`revisions, this`canaries
      ensures Agrees(Publish(old(View()), n, configuration, members, seed), View(), r)
    {
      hide CanonicalConfiguration, ValidConfiguration, DistinctIdentities, CanonicalUsers, MemberUsers, DuplicateUser,
           Sort;
      ghost var t := View();
      if last >= MAX_I64 {
        return Err(RevisionOverflow);
      }
      var next := last + 1;
      if n !in nodes {
        return Err(ConstraintViolation);
      }
      var canary := EnsureCanary(n, seed);
      var draft := new DesiredStateDraft(configuration, users + [canary.identity]);
      draft.Canonicalize();
      RowsAcceptable(t, members, users, canary.identity);
      CanonicalConfigurationValid(SCHEMA_VERSION, configuration);
      if |draft.users| > MAX_USERS || !DistinctIdentities(draft.users)
          || !ValidConfiguration(SCHEMA_VERSION, draft.configuration) {
        return Err(InvalidDocument);
      }
      assert AcceptableUsers(t, members, canary.identity);
      RowsCanonical(t, members, users, canary.identity);
      var snapshot := MemberSnapshot(users);
      RowsMembers(t, members, users);
      if !ArtifactFits(draft.configuration, next, |draft.users|) {
        return Err(ArtifactTooLarge);
      }
      revisions := revisions[next := Revision(n, draft.configuration, draft.users, snapshot, canary.identity)];
      if nodes[n].status != NodeActive {
        return Err(PublicationConflict(nodes[n].status));
      }
      nodes := nodes[n := nodes[n].(desired := next)];
      last := next;
      return Ok(Done);
    }

    /** Compile the node's policy and publish it under the given configuration. */
    method PublishNode(n: NodeId, configuration: Configuration, seed: DesiredUser) returns (r: Reply)
      modifies this`last, this`nodes, this`revisions, this`canaries
      ensures Agrees(PublishCompiled(old(View()), n, configuration, seed), View(), r)
    {
      ghost var t := View();
      var users :- CompileDesiredUsers(n);
      hide Publish, Compiled, MemberUsers, DuplicateUser;
      r := PublishCompiledDesiredState(n, configuration, users, Compiled(t, n), seed);
    }

    /** Republish every affected node in ascending order under its newest configuration. */
    method PublishAccountRevisions(affected: set<NodeId>, seeds: NodeId -> DesiredUser) returns (r: Reply)
      modifies this`last, this`nodes, this`revisions, this`canaries
      ensures Agrees(PublishAll(old(View()), affected, seeds), View(), r)
    {
      hide PublishCompiled, LatestConfiguration;
      var todo := affected;
      while todo != {}
        invariant PublishAll(old(View()), affected, seeds) == PublishAll(View(), todo, seeds)
        decreases |todo|
      {
        var n := FirstOf(todo);
        var configuration :- LatestConfiguration(View(), n);
        r := PublishNode(n, configuration, seeds(n));
        if r.Err? {
          return;
        }
        todo := todo - {n};
      }
      return Ok(Done);
    }
  
    // ----- credentials of one assignment -----

    method RevokeAssignmentCredentials(u: UserId, n: NodeId)
      modifies this`credentials
      ensures credentials == RevokePairs(old(credentials), u, {n})
    {
      credentials := RevokePairs(credentials, u, {n});
    }

    method RetireAssignmentCredentials(u: UserId, n: NodeId)
      modifies this`credentials
      ensures credentials == RetirePairs(old(credentials), u, {n})
    {
      credentials := RetirePairs(credentials, u, {n});
    }

    /** Insert a pending credential one version above the assignment's newest. */
    method IssueAssignmentCredential(u: UserId, n: NodeId, id: CredentialId) returns (r: Reply)
      modifies this`credentials
      ensures r == if id in old(credentials) then Err(ConstraintViolation) else Ok(Done)
      ensures r.Ok? ==> credentials == old(credentials)[id := Credential(u, n, NextVersion(old(credentials), u, n),
              Pending)]
    {
      var versions := set c | c in credentials && credentials[c].user == u
          && credentials[c].node == n :: credentials[c].version;
      var previous := 0;
      if versions != {} {
        GreatestExists(versions);
        previous :| previous in versions && forall v :: v in versions ==> v <= previous;
      }
      assert previous == MaxOf(Versions(credentials, u, n));
      if id in credentials {
        return Err(ConstraintViolation);
      }
      credentials := credentials[id := Credential(u, n, previous + 1, Pending)];
      return Ok(Done);
    }

    /** Revoke and issue on every enabled assignment of the account. */
    method ReissueEnabledAssignments(u: UserId, ids: NodeId -> CredentialId) returns (r: Reply)
      modifies this`credentials
      ensures r == if FreshFor(old(credentials), NodesWith(old(View()), u, Enabled), ids) then Ok(Done)
                   else Err(ConstraintViolation)
      ensures r.Ok? ==> credentials == Reissue(old(credentials), u, NodesWith(old(View()), u, Enabled), ids)
    {
      hide Reissue, RevokePairs, FreshFor, NextVersion;
      ghost var cs := credentials;
      var all := NodesWith(View(), u, Enabled);
      var todo := all;
      ReissueNothing(cs, u, ids);
      assert all - todo == {};
      while todo != {}
        invariant todo <= all
        invariant FreshFor(cs, all - todo, ids) && credentials == Reissue(cs, u, all - todo, ids)
        decreases |todo|
      {
        var n := FirstOf(todo);
        ghost var done := all - todo;
        assert all - (todo - {n}) == done + {n};
        FreshGrows(cs, u, done, n, ids);
        RevokedDomain(credentials, u, n);
        RevokeAssignmentCredentials(u, n);
        var issued := IssueAssignmentCredential(u, n, ids(n));
        if issued.Err? {
          FreshFailure(cs, done + {n}, all, ids);
          return issued;
        }
        ReissueNext(cs, u, done, n, ids);
        todo := todo - {n};
      }
      assert all - todo == all;
      return Ok(Done);
    }

    // ----- replacing the nodes of an account -----

    /** Insert the assignment, or enable it again after revoking what it had, and issue a credential. */
    method EnableAssignment(u: UserId, n: NodeId, id: CredentialId, existed: bool) returns (r: Reply)
      requires !existed ==> RevokePairs(credentials, u, {n}) == credentials
      modifies this`assignments, this`credentials
      ensures r == if id in old(credentials) then Err(ConstraintViolation) else Ok(Done)
      ensures r.Ok? ==> && assignments == old(assignments)[Pair(u, n) := Enabled]
                        && credentials == ReissueOne(old(credentials), u, n, id)
    {
      RevokedDomain(credentials, u, n);
      hide RevokePairs, NextVersion;
      if existed {
        RevokeAssignmentCredentials(u, n);
      }
      assignments := assignments[Pair(u, n) := Enabled];
      r := IssueAssignmentCredential(u, n, id);
    }

    /** Enable every requested assignment that is missing or disabled. */
    method EnableRequestedAssignments(u: UserId, requested: set<NodeId>, ids: NodeId -> CredentialId)
      returns (r: Outcome<set<NodeId>, PlaneError>)
      requires References(View())
      modifies this`assignments, this`credentials
      ensures var t := old(View()); var enable := ToEnable(t, u, requested);
              && (r.Ok? <==> requested * NodesWith(t, u, Deleted) == {} && FreshFor(t.credentials, enable, ids))
              && (r.Err? ==> r.error == EnablingError(t, u, requested, ids))
              && (r.Ok? ==> && r.value == enable && assignments == Reassign(t.assignments, u, enable, {})
                            && credentials == Reissue(t.credentials, u, enable, ids))
    {
      hide Reissue, Reassign, RevokePairs, FreshFor, NextVersion, References, Enabling, ToEnable, EnablingError,
           Ascending;
      ghost var t := View();
      var existing := assignments;
      var changed: set<NodeId> := {};
      var todo := requested;
      EnablingStarts(t, u, ids);
      assert requested - todo == {} && InOrder(requested, todo);
      hide InOrder;
      while todo != {}
        invariant todo <= requested && InOrder(requested, todo)
        invariant Enabling(t, u, requested - todo, changed, ids, assignments, credentials)
        decreases |todo|
      {
        var n := FirstOf(todo);
        ghost var done := requested - todo;
        ghost var a, cs := assignments, credentials;
        FirstIsNext(requested, todo, n);
        if Pair(u, n) in existing && existing[Pair(u, n)] == Deleted {
          EnablingMeetsDeleted(t, u, requested, done, changed, ids, a, cs, n);
          return Err(AssignmentConflict(n));
        } else if Pair(u, n) in existing && existing[Pair(u, n)] == Enabled {
          EnablingSkips(t, u, done, changed, ids, assignments, credentials, n);
        } else {
          EnablingNext(t, u, done, changed, ids, assignments, credentials, n);
          if Pair(u, n) !in existing {
            EnablingUnassigned(t, u, done, changed, ids, assignments, credentials, n);
          }
          var issued := EnableAssignment(u, n, ids(n), Pair(u, n) in existing);
          if issued.Err? {
            EnablingFails(t, u, requested, done, changed, ids, a, cs, n);
            return Err(issued.error);
          }
          changed := changed + {n};
        }
        todo := todo - {n};
      }
      assert requested - todo == requested;
      EnablingEnds(t, u, requested, changed, ids, assignments, credentials);
      return Ok(changed);
    }
  
    /** Disable every enabled assignment that is not requested. */
    method DisableOmittedAssignments(u: UserId, requested: set<NodeId>, existing: map<Pair, AssignmentStatus>,
                                     ghost t: Tables, ghost enable: set<NodeId>) returns (changed: set<NodeId>)
      requires existing == t.assignments && assignments == Reassign(t.assignments, u, enable, {})
      modifies this`assignments, this`credentials
      ensures changed == ToDisable(t, u, requested)
      ensures assignments == Reassign(t.assignments, u, enable, changed)
      ensures credentials == RetirePairs(old(credentials), u, changed)
    {
      hide Reassign, RetirePairs;
      var all := set a | a in existing && a.user == u && existing[a] == Enabled && a.node !in requested :: a.node;
      assert all == ToDisable(t, u, requested);
      changed := {};
      RetireNothing(credentials, u);
      while changed != all
        invariant changed <= all
        invariant assignments == Reassign(t.assignments, u, enable, changed)
        invariant credentials == RetirePairs(old(credentials), u, changed)
        decreases |all - changed|
      {
        var n := FirstOf(all - changed);
        DisableNext(t.assignments, u, enable, changed, n);
        RetireNext(old(credentials), u, changed, n);
        assignments := assignments[Pair(u, n) := Disabled];
        RetireAssignmentCredentials(u, n);
        assert all - (changed + {n}) == all - changed - {n};
        changed := changed + {n};
      }
    }

    /** The requested nodes must exist and be active; the first one that is not decides the error. */
    method ValidateAssignmentNodes(requested: set<NodeId>) returns (r: Reply)
      ensures r.Ok? <==> Unassignable(View(), requested) == {}
      ensures r.Err? ==> var n := Least(Unassignable(View(), requested));
                         r.error == if n !in nodes then NodeNotFound else NodeUnavailable(n)
    {
      var todo := requested;
      while todo != {}
        invariant todo <= requested && Unassignable(View(), requested) <= todo
        decreases |todo|
      {
        var n := FirstOf(todo);
        if n !in nodes || nodes[n].status != NodeActive {
          assert n in Unassignable(View(), requested);
          assert n == Least(Unassignable(View(), requested));
          return Err(if n !in nodes then NodeNotFound else NodeUnavailable(n));
        }
        todo := todo - {n};
      }
      return Ok(Done);
    }

    /** The statements of the replacement, between begin and commit. */
    method ReplaceInTransaction(u: UserId, requested: set<NodeId>, ids: NodeId -> CredentialId,
                                seeds: NodeId -> DesiredUser) returns (r: Reply)
      requires References(View())
      modifies this
      ensures Agrees(ReplaceNodes(old(View()), u, requested, ids, seeds), View(), r)
    {
      hide Reissue, Reassign, RetirePairs, IssuePairs, RevokePairs, FreshFor, References, ToEnable, ToDisable,
           PublishAll, Unassignable;
      ghost var t := View();
      if |requested| > 100 {
        return Err(InvalidRequest);
      }
      if u !in accounts {
        return Err(AccountNotFound);
      }
      if accounts[u] != AccountActive {
        return Err(AccountLifecycleConflict);
      }
      r := ValidateAssignmentNodes(requested);
      if r.Err? {
        return;
      }
      var existing := assignments;
      var enabled :- EnableRequestedAssignments(u, requested, ids);
      var disabled := DisableOmittedAssignments(u, requested, existing, t, enabled);
      ReplacedIsReissued(t, u, enabled, disabled, ids);
      assert View() == ReplacedTables(t, u, enabled, disabled, ids);
      r := PublishAccountRevisions(enabled + disabled, seeds);
    }

    method ReplaceAccountNodes(u: UserId, requested: set<NodeId>, ids: NodeId -> CredentialId,
                               seeds: NodeId -> DesiredUser) returns (r: Reply)
      requires Valid()
      modifies this
      ensures Valid() && Committed(ReplaceNodes(old(View()), u, requested, ids, seeds), old(View()), View(), r)
    {
      InvIsSound(View());
      hide Inv, ReplaceNodes, Grows, PolicyPublished;
      var before := View();
      r := ReplaceInTransaction(u, requested, ids, seeds);
      if r.Err? {
        Rollback(before);
      } else {
        ReplaceNodesStepKeeps(before, u, requested, ids, seeds, View());
      }
    }
  
    // ----- account status and credential rotation -----

    method RetireEnabledAssignments(u: UserId)
      modifies this`credentials
      ensures credentials == RetirePairs(old(credentials), u, NodesWith(old(View()), u, Enabled))
    {
      hide RetirePairs;
      var all := NodesWith(View(), u, Enabled);
      var done: set<NodeId> := {};
      RetireNothing(credentials, u);
      while done != all
        invariant done <= all
        invariant credentials == RetirePairs(old(credentials), u, done)
        decreases |all - done|
      {
        var n := FirstOf(all - done);
        RetireNext(old(credentials), u, done, n);
        RetireAssignmentCredentials(u, n);
        assert all - (done + {n}) == all - done - {n};
        done := done + {n};
      }
    }

    method ApplyAccountStatus(u: UserId, requested: AccountStatus, ids: NodeId -> CredentialId) returns (r: Reply)
      modifies this
      ensures Agrees(ApplyStatus(old(View()), u, requested, ids), View(), r)
    {
      hide RetirePairs, RevokeUser, DeleteAssignments, IssuePairs, FreshFor;
      ghost var t := View();
      accounts := accounts[u := requested];
      SameAccountNodes(t, View(), u);
      hide NodesWith;
      match requested {
        case AccountActive =>
          r := ReissueEnabledAssignments(u, ids);
        case AccountDisabled =>
          RetireEnabledAssignments(u);
          r := Ok(Done);
        case AccountDeleted =>
          assignments := DeleteAssignments(assignments, u);
          credentials := RevokeUser(credentials, u);
          r := Ok(Done);
      }
    }

    method SetStatusInTransaction(u: UserId, requested: AccountStatus, ids: NodeId -> CredentialId,
                                  seeds: NodeId -> DesiredUser) returns (r: Reply)
      modifies this
      ensures Agrees(SetStatus(old(View()), u, requested, ids, seeds), View(), r)
    {
      hide ApplyStatus, PublishableNodes;
      if u !in accounts {
        return Err(AccountNotFound);
      }
      if accounts[u] == AccountDeleted && requested != AccountDeleted {
        return Err(AccountLifecycleConflict);
      }
      var affected: set<NodeId> := {};
      if accounts[u] != requested {
        affected := PublishableNodes(View(), u);
        r := ApplyAccountStatus(u, requested, ids);
        if r.Err? {
          return;
        }
      }
      r := PublishAccountRevisions(affected, seeds);
    }

    method SetAccountStatus(u: UserId, requested: AccountStatus, ids: NodeId -> CredentialId,
                            seeds: NodeId -> DesiredUser) returns (r: Reply)
      requires Valid()
      modifies this
      ensures Valid() && Committed(SetStatus(old(View()), u, requested, ids, seeds), old(View()), View(), r)
    {
      hide Inv, SetStatus, Grows, PolicyPublished;
      var before := View();
      r := SetStatusInTransaction(u, requested, ids, seeds);
      if r.Err? {
        Rollback(before);
      } else {
        SetStatusStepKeeps(before, u, requested, ids, seeds, View());
      }
    }

    method RotateInTransaction(u: UserId, trigger: RotationTrigger, ids: NodeId -> CredentialId,
                               seeds: NodeId -> DesiredUser) returns (r: Reply)
      modifies this
      ensures Agrees(RotateAccount(old(View()), u, trigger, ids, seeds), View(), r)
    {
      hide RevokePairs, IssuePairs, FreshFor, NodesWith, PublishAll;
      if u !in accounts {
        return Err(AccountNotFound);
      }
      if trigger == ResetTokenConsumed && accounts[u] != AccountActive {
        return Err(AccountBlocked);
      }
      if trigger != DeviceRevoked && accounts[u] == AccountDeleted {
        return Err(AccountBlocked);
      }
      var affected := NodesWith(View(), u, Enabled);
      r := ReissueEnabledAssignments(u, ids);
      if r.Err? {
        return;
      }
      r := PublishAccountRevisions(affected, seeds);
    }

    /** Password change, session reset, reset-token consumption, device revocation. */
    method RotateAccountCredentials(u: UserId, trigger: RotationTrigger, ids: NodeId -> CredentialId,
                                    seeds: NodeId -> DesiredUser) returns (r: Reply)
      requires Valid()
      modifies this
      ensures Valid() && Committed(RotateAccount(old(View()), u, trigger, ids, seeds), old(View()), View(), r)
    {
      hide Inv, RotateAccount, Grows, PolicyPublished;
      var before := View();
      r := RotateInTransaction(u, trigger, ids, seeds);
      if r.Err? {
        Rollback(before);
      } else {
        RotateAccountStepKeeps(before, u, trigger, ids, seeds, View());
      }
    }

    // ----- nodes -----

    method EnrollNode(n: NodeId, xray: bool, agentVersion: string, bootstrap: Option<Configuration>, seed: DesiredUser)
      returns (r: Reply)
      requires Valid()
      modifies this
      ensures Valid() && Committed(Enroll(old(View()), n, xray, agentVersion, bootstrap, seed), old(View()), View(), r)
    {
      hide Inv, Grows, Publish;
      var before := View();
      if n in nodes {
        return Err(ConstraintViolation);
      }
      if bootstrap.Some? && !xray {
        return Err(InvalidRequest);
      }
      var status := if bootstrap.Some? then NodeActive else NodePending;
      nodes := nodes[n := Node(status, 0, 0, 0, 0, 0, xray, agentVersion)];
      r := Ok(Done);
      if bootstrap.Some? {
        assert MemberUsers(View(), {}) == {};
        r := PublishCompiledDesiredState(n, bootstrap.value, [], {}, seed);
      }
      if r.Err? {
        Rollback(before);
      } else {
        EnrollStepKeeps(before, n, xray, agentVersion, bootstrap, seed, View());
      }
    }

    method TransitionNode(n: NodeId, action: LifecycleAction) returns (r: Reply)
      requires Valid()
      modifies this
      ensures Valid() && Committed(Transition(old(View()), n, action), old(View()), View(), r)
    {
      hide Inv, Grows, CloseAssignments, RevokeNode;
      ghost var before := View();
      if n !in nodes {
        return Err(NodeNotFound);
      }
      var target := LifecycleTarget(action, nodes[n].status);
      if target.None? {
        return Err(NodeLifecycleConflict);
      }
      nodes := nodes[n := nodes[n].(status := target.value)];
      if action != Approve {
        assignments := CloseAssignments(assignments, n, action);
        credentials := RevokeNode(credentials, n);
      }
      TransitionStepKeeps(before, n, action, View());
      return Ok(Done);
    }

    /** Move the node's cached cursors for a recorded result. */
    method UpdateProgressCache(n: NodeId, revision: nat, result: RevisionResult)
      requires n in nodes && (result.state == RolledBack ==> result.rollback.Some?)
      modifies this`nodes
      ensures nodes == old(nodes)[n := AdvanceCursors(old(nodes)[n], revision, result)]
    {
      var node := nodes[n];
      node := node.(reported := Max(node.reported, revision), received := Max(node.received, revision));
      if result.state == Validated || result.state == Applied || result.state == RolledBack {
        node := node.(validated := Max(node.validated, revision));
      }
      if result.state == Applied {
        node := node.(applied := Max(node.applied, revision));
      } else if result.state == RolledBack {
        node := node.(applied := result.rollback.value);
      }
      nodes := nodes[n := node];
    }

    /** Promote pending credentials of the applied snapshot, then revoke active and retiring ones outside it. */
    method ReconcileAppliedCredentials(n: NodeId, snapshot: set<CredentialId>)
      modifies this`credentials
      ensures credentials == SettleNode(old(credentials), n, snapshot)
    {
      credentials := map c | c in credentials ::
        if credentials[c].node == n && credentials[c].status == Pending && c in snapshot
        then credentials[c].(status := Active) else credentials[c];
      credentials := map c | c in credentials ::
        if credentials[c].node == n && (credentials[c].status == Active || credentials[c].status == Retiring)
            && c !in snapshot
        then credentials[c].(status := Revoked) else credentials[c];
    }

    method RecordInTransaction(n: NodeId, revision: nat, result: RevisionResult) returns (r: Reply)
      modifies this
      ensures Agrees(RecordResult(old(View()), n, revision, result), View(), r)
    {
      hide SettleNode, ValidResult, Latest, TransitionAllowed, AdvanceCursors;
      if revision == 0 || !ValidResult(result, revision) {
        return Err(InvalidResult);
      }
      if n !in nodes || (nodes[n].status != NodePending && nodes[n].status != NodeActive) {
        return Err(NodeIsRevoked);
      }
      if nodes[n].desired != 0 && revision > nodes[n].desired {
        return Err(ResultConflict);
      }
      if revision !in revisions || revisions[revision].node != n {
        return Err(TargetNotFound);
      }
      var previous := Latest(View(), revision);
      if !TransitionAllowed(previous, result) {
        return Err(ResultConflict);
      }
      if previous == Some(result) {
        return Ok(Done);
      }
      if !DependenciesMet(View(), n, revision, result) {
        return Err(ResultConflict);
      }
      journal := journal[ResultKey(revision, result.state) := result];
      UpdateProgressCache(n, revision, result);
      if result.state == Applied || result.state == RolledBack {
        if nodes[n].applied !in revisions {
          return Err(ResultConflict);
        }
        ReconcileAppliedCredentials(n, revisions[nodes[n].applied].members);
      }
      return Ok(Done);
    }

    method RecordRevisionResult(n: NodeId, revision: nat, result: RevisionResult) returns (r: Reply)
      requires Valid()
      modifies this
      ensures Valid() && Committed(RecordResult(old(View()), n, revision, result), old(View()), View(), r)
    {
      hide Inv, Grows, RecordResult;
      var before := View();
      r := RecordInTransaction(n, revision, result);
      if r.Err? {
        Rollback(before);
      } else {
        RecordStepKeeps(before, n, revision, result, View());
      }
    }

    /** The revision cursors of a heartbeat must agree with the cached ones. */
    method RecordReportedProgress(n: NodeId, g: Progress, version: string) returns (r: Reply)
      requires Valid()
      modifies this
      ensures Valid() && Committed(ReportProgress(old(View()), n, g, version), old(View()), View(), r)
    {
      hide Inv, Grows, ReportProgress;
      var before := View();
      r := ReportInTransaction(n, g, version);
      if r.Err? {
        Rollback(before);
      } else {
        ReportStepKeeps(before, n, g, version, View());
      }
    }

    method ReportInTransaction(n: NodeId, g: Progress, version: string) returns (r: Reply)
      modifies this`nodes
      ensures Agrees(ReportProgress(old(View()), n, g, version), View(), r)
    {
      hide ShortText, ProgressError, Targeted;
      if !ShortText(version, 64) || !ConsistentProgress(g) {
        return Err(InvalidRequest);
      }
      if n !in nodes || (nodes[n].status != NodePending && nodes[n].status != NodeActive) {
        return Err(NodeIsRevoked);
      }
      r := ValidateReportedProgress(n, g);
      if r.Ok? {
        nodes := nodes[n := nodes[n].(reported := g.desired, agentVersion := version)];
      }
    }

    method ValidateReportedProgress(n: NodeId, g: Progress) returns (r: Reply)
      requires n in nodes
      ensures match ProgressError(nodes[n], Targeted(View(), n, g.desired), g)
              case Some(e) => r == Err(e)
              case None => r == Ok(Done)
    {
      var node := nodes[n];
      if g.desired < node.reported {
        return Err(ProgressRegressed);
      }
      if g.desired != 0 && (g.desired > node.desired || !Targeted(View(), n, g.desired)) {
        return Err(ProgressConflict);
      }
      var cursors := [(node.received, g.received), (node.validated, g.validated), (node.applied, g.applied)];
      for i := 0 to 3
        invariant forall j :: 0 <= j < i ==> cursors[j].0 == cursors[j].1
      {
        assert i > 0 ==> cursors[0].0 == cursors[0].1;
        assert i > 1 ==> cursors[1].0 == cursors[1].1;
        var error := CursorError(cursors[i].0, cursors[i].1);
        if error.Some? {
          return Err(error.value);
        }
      }
      assert cursors[0].0 == cursors[0].1 && cursors[1].0 == cursors[1].1 && cursors[2].0 == cursors[2].1;
      return Ok(Done);
    }

    // ----- operator publications -----

    method PublishDesiredState(n: NodeId, configuration: Configuration, seed: DesiredUser) returns (r: Reply)
      requires Valid()
      modifies this
      ensures Valid() && Committed(PublishDesired(old(View()), n, configuration, seed), old(View()), View(), r)
    {
      hide Inv, Grows, PublishCompiled;
      var before := View();
      if n !in nodes {
        return Err(NodeNotFound);
      }
      if nodes[n].status != NodeActive {
        return Err(PublicationConflict(nodes[n].status));
      }
      r := PublishNode(n, configuration, seed);
      if r.Err? {
        Rollback(before);
      } else {
        PublishStepKeeps(before, n, configuration, seed, View());
      }
    }

    method RotateCanaryInTransaction(n: NodeId, seed: DesiredUser) returns (r: Reply)
      modifies this
      ensures Agrees(Plane.RotateCanary(old(View()), n, seed), View(), r)
    {
      hide PublishCompiled, LatestConfiguration;
      var configuration :- LatestConfiguration(View(), n);
      var next := Canary(seed, 1, {});
      if n in canaries {
        next := Canary(seed, canaries[n].generation + 1, canaries[n].retired + {canaries[n].identity.credential});
      }
      if next.generation > MAX_I64 {
        return Err(RevisionOverflow);
      }
      if seed.credential in next.retired {
        return Err(ConstraintViolation);
      }
      canaries := canaries[n := next];
      r := PublishNode(n, configuration, seed);
    }

    /** Retire the node's canary, create the next generation and publish it. */
    method RotateProtocolCanary(n: NodeId, seed: DesiredUser) returns (r: Reply)
      requires Valid()
      modifies this
      ensures Valid() && Committed(Plane.RotateCanary(old(View()), n, seed), old(View()), View(), r)
    {
      hide Inv, Grows, Plane.RotateCanary;
      var before := View();
      r := RotateCanaryInTransaction(n, seed);
      if r.Err? {
        Rollback(before);
      } else {
        RotateCanaryStepKeeps(before, n, seed, View());
      }
    }

    method PrepareTargets(ordered: seq<RollbackTarget>) returns (r: Outcome<seq<Configuration>, PlaneError>)
      ensures r == PrepareAll(View(), ordered)
    {
      hide PrepareTarget;
      var prepared: seq<Configuration> := [];
      assert ordered[0..] == ordered;
      PrependNothing(PrepareAll(View(), ordered));
      for i := 0 to |ordered|
        invariant PrepareAll(View(), ordered) == Prepended(prepared, PrepareAll(View(), ordered[i..]))
      {
        assert ordered[i..][1..] == ordered[i + 1..];
        var configuration :- PrepareTarget(View(), ordered[i]);
        PrependMore(prepared, configuration, PrepareAll(View(), ordered[i + 1..]));
        prepared := prepared + [configuration];
      }
      assert prepared + [] == prepared;
      return Ok(prepared);
    }

    method PublishRollbackTargets(ordered: seq<RollbackTarget>, configurations: seq<Configuration>,
                                  seeds: NodeId -> DesiredUser)
      returns (r: Outcome<seq<RollbackPublication>, PlaneError>)
      requires |ordered| == |configurations|
      modifies this`last, this`nodes, this`revisions, this`canaries
      ensures var spec := PublishTargets(old(View()), ordered, configurations, seeds);
              match spec
              case Ok(out) => r.Ok? && out == RolledOut(View(), r.value)
              case Err(e) => r == Err(e)
    {
      hide PublishCompiled;
      var publications: seq<RollbackPublication> := [];
      assert ordered[0..] == ordered && configurations[0..] == configurations;
      ContinueNothing(PublishTargets(View(), ordered, configurations, seeds));
      for i := 0 to |ordered|
        invariant PublishTargets(old(View()), ordered, configurations, seeds)
                  == Continued(publications, PublishTargets(View(), ordered[i..], configurations[i..], seeds))
      {
        assert ordered[i..][1..] == ordered[i + 1..] && configurations[i..][1..] == configurations[i + 1..];
        var target := ordered[i];
        var published := PublishNode(target.node, configurations[i], seeds(target.node));
        if published.Err? {
          return Err(published.error);
        }
        var publication := RollbackPublication(target.node, target.source, target.failed, last);
        ContinueMore(publications, publication, PublishTargets(View(), ordered[i + 1..], configurations[i + 1..],
            seeds));
        publications := publications + [publication];
      }
      assert publications + [] == publications;
      return Ok(publications);
    }

    method RollbackInTransaction(key: RollbackKey, targets: seq<RollbackTarget>, reason: RollbackReason,
                                 seeds: NodeId -> DesiredUser)
      returns (r: Outcome<seq<RollbackPublication>, PlaneError>)
      modifies this
      ensures var spec := OperatorRollback(old(View()), key, targets, reason, seeds);
              match spec
              case Ok(out) => r.Ok? && out == RolledOut(View(), r.value)
              case Err(e) => r == Err(e)
    {
      hide ValidTargets, PrepareAll, PublishTargets, Sort;
      if !ValidTargets(targets) {
        return Err(InvalidRequest);
      }
      TargetOrder();
      var ordered := SortVector(TargetLeq, targets);
      if key in replays {
        if replays[key].targets != ordered || replays[key].reason != reason {
          return Err(KeyConflict);
        }
        return Ok(replays[key].response);
      }
      var configurations :- PrepareTargets(ordered);
      if |configurations| != |ordered| {
        return Err(StoredValue);
      }
      var publications :- PublishRollbackTargets(ordered, configurations, seeds);
      replays := replays[key := RollbackRecord(ordered, reason, publications)];
      return Ok(publications);
    }

    method RollBackCohort(key: RollbackKey, targets: seq<RollbackTarget>, reason: RollbackReason,
                          seeds: NodeId -> DesiredUser)
      returns (r: Outcome<seq<RollbackPublication>, PlaneError>)
      requires Valid()
      modifies this
      ensures Valid()
      ensures var spec := OperatorRollback(old(View()), key, targets, reason, seeds);
              match spec
              case Ok(out) => r.Ok? && out == RolledOut(View(), r.value)
              case Err(e) => r == Err(e) && View() == old(View())
    {
      hide Inv, Grows, OperatorRollback;
      var before := View();
      r := RollbackInTransaction(key, targets, reason, seeds);
      if r.Err? {
        Rollback(before);
      } else {
        RollbackStepKeeps(before, key, targets, reason, seeds, RolledOut(View(), r.value));
      }
    }

    /** Publish only if the newest revision does not carry the live policy or has failed. */
    method ReconcileNode(n: NodeId, seed: DesiredUser) returns (r: Outcome<bool, PlaneError>)
      requires Valid()
      modifies this
      ensures Valid()
      ensures var spec := Reconcile(old(View()), n, seed);
              match spec
              case Ok(out) => r.Ok? && out == Reconciled(View(), r.value)
              case Err(e) => r == Err(e) && View() == old(View())
    {
      InvDocuments(View());
      hide Inv, Grows, Reconcile;
      var before := View();
      r := ReconcileInTransaction(n, seed);
      if r.Err? {
        Rollback(before);
      } else {
        ReconcileStepKeeps(before, n, seed, Reconciled(View(), r.value));
      }
    }

    /** Compare the newest revision with the compiled rows, the canary and the result journal. */
    method IsUpToDate(n: NodeId, users: seq<DesiredUser>, canary: Canary) returns (same: bool)
      requires DocumentsFaithful(View()) && n in nodes && nodes[n].desired in revisions
      requires multiset(users) == multiset(MemberUsers(View(), Compiled(View(), n)))
      ensures same <==> UpToDate(View(), n, canary)
    {
      CompiledKnown(View(), n);
      hide Compiled, MemberUsers, CanonicalUsers, Sort, DocumentsFaithful, StoredUsers;
      UserOrder();
      var expected := SortVector(UserLeq, users + [canary.identity]);
      var current := revisions[nodes[n].desired];
      var snapshot := MemberSnapshot(users);
      RowsMembers(View(), Compiled(View(), n), users);
      StoredList(View(), nodes[n].desired);
      CurrentUsers(View(), Compiled(View(), n), users, canary.identity, StoredUsers(View(), nodes[n].desired));
      same := current.users == expected && current.members == snapshot
              && ResultKey(nodes[n].desired, Rejected) !in journal
              && ResultKey(nodes[n].desired, RolledBack) !in journal;
    }

    method ReconcileInTransaction(n: NodeId, seed: DesiredUser) returns (r: Outcome<bool, PlaneError>)
      requires DocumentsFaithful(View())
      modifies this
      ensures var spec := Reconcile(old(View()), n, seed);
              match spec
              case Ok(out) => r.Ok? && out == Reconciled(View(), r.value)
              case Err(e) => r == Err(e)
    {
      CompiledKnown(View(), n);
      hide Publish, Compiled, MemberUsers, DuplicateUser, DocumentsFaithful, UpToDate;
      ghost var t := View();
      var configuration :- LatestConfiguration(View(), n);
      var users :- CompileDesiredUsers(n);
      var canary := EnsureCanary(n, seed);
      CanaryIsKept(t, n, seed, View(), configuration);
      var same := IsUpToDate(n, users, canary);
      if same {
        return Ok(false);
      }
      var published := PublishCompiledDesiredState(n, configuration, users, Compiled(t, n), seed);
      if published.Err? {
        return Err(published.error);
      }
      return Ok(true);
    }
  }

  lemma InvDocuments(t: Tables)
    requires Inv(t)
    ensures DocumentsFaithful(t)
  {
  }

  lemma CompiledKnown(t: Tables, n: NodeId)
    ensures Compiled(t, n) <= t.credentials.Keys
  {
  }

  /** The users of a stored revision, as a set. */
  ghost function StoredUsers(t: Tables, r: nat): set<DesiredUser>
    requires DocumentsFaithful(t) && r in t.revisions
  {
    assert DocumentFaithful(t, r);
    MemberUsers(t, t.revisions[r].members) + {t.revisions[r].canary}
  }

  lemma StoredList(t: Tables, r: nat)
    requires DocumentsFaithful(t) && r in t.revisions
    ensures t.revisions[r].users == CanonicalUsers(StoredUsers(t, r))
  {
    assert DocumentFaithful(t, r);
  }

  /** Publishing after the canary was made sure of is publishing with the original seed. */
  lemma CanaryIsKept(t: Tables, n: NodeId, seed: DesiredUser, q: Tables, configuration: Configuration)
    requires q == t.(canaries := t.canaries[n := CanaryFor(t, n, seed)])
    requires !DuplicateUser(t, Compiled(t, n)) && n in t.nodes && t.nodes[n].desired in t.revisions
    ensures Compiled(q, n) == Compiled(t, n) && !DuplicateUser(q, Compiled(t, n))
    ensures UpToDate(q, n, CanaryFor(t, n, seed)) <==> UpToDate(t, n, CanaryFor(t, n, seed))
    ensures DocumentsFaithful(t) ==> DocumentsFaithful(q)
    ensures MemberUsers(q, Compiled(t, n)) == MemberUsers(t, Compiled(t, n))
    ensures Publish(q, n, configuration, Compiled(t, n), seed) == Publish(t, n, configuration, Compiled(t, n), seed)
  {
    hide CanonicalUsers, Compiled, DocumentsFaithful, Publish, UpToDate, DuplicateUser, MemberUsers;
    CanaryChangesNothing(t, n, q);
    CanaryStaysUpToDate(t, n, q, CanaryFor(t, n, seed));
    CanaryPublishes(t, n, seed, q, configuration);
    if DocumentsFaithful(t) {
      CanaryKeepsDocuments(t, q);
    }
  }

  lemma CanaryChangesNothing(t: Tables, n: NodeId, q: Tables)
    requires q == t.(canaries := q.canaries)
    ensures Compiled(q, n) == Compiled(t, n) && Compiled(t, n) <= t.credentials.Keys
    ensures MemberUsers(q, Compiled(t, n)) == MemberUsers(t, Compiled(t, n))
    ensures DuplicateUser(q, Compiled(t, n)) <==> DuplicateUser(t, Compiled(t, n))
  {
  }

  lemma CanaryStaysUpToDate(t: Tables, n: NodeId, q: Tables, canary: Canary)
    requires q == t.(canaries := q.canaries) && n in t.nodes && t.nodes[n].desired in t.revisions
    ensures UpToDate(q, n, canary) <==> UpToDate(t, n, canary)
  {
    CanaryChangesNothing(t, n, q);
    hide CanonicalUsers, Compiled, MemberUsers, DuplicateUser;
  }

  lemma CanaryPublishes(t: Tables, n: NodeId, seed: DesiredUser, q: Tables, configuration: Configuration)
    requires q == t.(canaries := t.canaries[n := CanaryFor(t, n, seed)]) && Compiled(t, n) <= t.credentials.Keys
    ensures Publish(q, n, configuration, Compiled(t, n), seed) == Publish(t, n, configuration, Compiled(t, n), seed)
  {
    CanaryChangesNothing(t, n, q);
    hide CanonicalUsers, Compiled, MemberUsers, DuplicateUser, ValidConfiguration, CanonicalConfiguration;
    assert q.canaries[n := CanaryFor(q, n, seed)] == q.canaries;
  }

  lemma CanaryKeepsDocuments(t: Tables, q: Tables)
    requires q == t.(canaries := q.canaries) && DocumentsFaithful(t)
    ensures DocumentsFaithful(q)
  {
  }

  lemma SameAccountNodes(t: Tables, q: Tables, u: UserId)
    requires q.assignments == t.assignments
    ensures NodesWith(q, u, Enabled) == NodesWith(t, u, Enabled)
  {
  }

  // ----- accumulating loops over the rollback cohort -----

  ghost function Prepended(done: seq<Configuration>, rest: Outcome<seq<Configuration>, PlaneError>)
    : Outcome<seq<Configuration>, PlaneError>
  {
    match rest
    case Ok(more) => Ok(done + more)
    case Err(e) => Err(e)
  }

  lemma PrependNothing(rest: Outcome<seq<Configuration>, PlaneError>)
    ensures Prepended([], rest) == rest
  {
    if rest.Ok? {
      assert [] + rest.value == rest.value;
    }
  }

  lemma PrependMore(done: seq<Configuration>, next: Configuration, rest: Outcome<seq<Configuration>, PlaneError>)
    ensures Prepended(done, Prepended([next], rest)) == Prepended(done + [next], rest)
  {
    if rest.Ok? {
      assert done + ([next] + rest.value) == done + [next] + rest.value;
    }
  }

  ghost function Continued(done: seq<RollbackPublication>, rest: Outcome<RolledOut, PlaneError>)
    : Outcome<RolledOut, PlaneError>
  {
    match rest
    case Ok(out) => Ok(RolledOut(out.tables, done + out.publications))
    case Err(e) => Err(e)
  }

  lemma ContinueNothing(rest: Outcome<RolledOut, PlaneError>)
    ensures Continued([], rest) == rest
  {
    if rest.Ok? {
      assert [] + rest.value.publications == rest.value.publications;
    }
  }

  lemma ContinueMore(done: seq<RollbackPublication>, next: RollbackPublication, rest: Outcome<RolledOut, PlaneError>)
    ensures Continued(done, Continued([next], rest)) == Continued(done + [next], rest)
  {
    if rest.Ok? {
      assert done + ([next] + rest.value.publications) == done + [next] + rest.value.publications;
    }
  }

  /** The first element an ordered set yields. */
  method FirstOf(s: set<nat>) returns (m: nat)
    requires s != {}
    ensures m == Least(s)
  {
    ghost var x :| x in s;
    LeastBelow(s, x);
    m :| m in s && forall y :: y in s ==> m <= y;
  }
}
