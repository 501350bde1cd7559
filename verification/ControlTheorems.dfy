/** What the control plane guarantees in every reachable state, and what each account operation means
    for the users it touches. */
module ControlTheorems {
  import opened Domain
  import opened Ordering
  import opened DesiredState
  import opened Plane
  import opened RevisionLog
  import opened Credentials
  import opened Publication
  import opened Accounts
  import opened Nodes
  import opened Operator
  import opened Rollback
  import opened ControlRuns

  // ----- credentials -----

  /** Whatever order reports and administrative steps arrive in, an active or retiring credential is in
      the member snapshot of its node's applied revision and a pending one is not. */
  lemma StatusesFollowAppliedRevision(steps: seq<Step>, c: CredentialId)
    ensures var t := Run(EmptyTables, steps);
            c in t.credentials && t.credentials[c].status != Revoked ==>
              (InApplied(t, c) <==> t.credentials[c].status != Pending)
  {
    Reachable(steps);
    hide Run;
    var t := Run(EmptyTables, steps);
    assert c in t.credentials ==> DecidedByApplied(t, c);
  }

  /** Each assignment has at most one live credential; it has the assignment's highest version and the
      assignment is enabled. */
  lemma OneLiveCredentialPerAssignment(steps: seq<Step>, c: CredentialId, d: CredentialId)
    ensures var t := Run(EmptyTables, steps);
            c in t.credentials && d in t.credentials && SamePair(t.credentials[c], t.credentials[d])
                && Live(t.credentials[c].status) ==>
              && (Live(t.credentials[d].status) ==> c == d)
              && t.credentials[d].version <= t.credentials[c].version
              && Pair(t.credentials[c].user, t.credentials[c].node) in t.assignments
              && t.assignments[Pair(t.credentials[c].user, t.credentials[c].node)] == Enabled
  {
    Reachable(steps);
    hide Run;
    var t := Run(EmptyTables, steps);
    if c in t.credentials && d in t.credentials && SamePair(t.credentials[c], t.credentials[d])
        && Live(t.credentials[c].status)
       && Live(t.credentials[d].status) {
      OneLiveCredential(t, c, d);
    }
  }

  /** The duplicate-user refusal while compiling a node's users cannot happen. */
  lemma CompilationNeverRefuses(steps: seq<Step>, n: NodeId)
    ensures var t := Run(EmptyTables, steps); !DuplicateUser(t, Compiled(t, n))
  {
    hide Run, Inv;
    Reachable(steps);
    NoDuplicates(Run(EmptyTables, steps), n);
  }

  /** Between any two points of a run a credential keeps its user, node and version, its status never
      moves backwards, and recorded reports, revisions and rollback answers never change. */
  lemma HistoryOnlyGrows(before: seq<Step>, more: seq<Step>)
    ensures Grows(Run(EmptyTables, before), Run(Run(EmptyTables, before), more))
  {
    hide Run, Inv, Grows;
    Reachable(before);
    RunKeeps(Run(EmptyTables, before), more);
  }

  // ----- assignments -----

  /** Every enabled assignment points at an active node that already has a desired revision. */
  lemma EnabledAssignmentsAreServed(steps: seq<Step>, a: Pair)
    ensures var t := Run(EmptyTables, steps);
            a in t.assignments && t.assignments[a] == Enabled ==> Ready(t, a.node)
  {
    Reachable(steps);
    hide Run;
  }

  // ----- progress -----

  /** applied <= validated <= received <= reported <= desired <= last network revision; received and
      validated are the maxima of the journal, applied names a revision with an applied record, and
      desired is the newest revision targeted at the node. */
  lemma ProgressAgreesWithJournal(steps: seq<Step>, n: NodeId)
    ensures var t := Run(EmptyTables, steps);
            n in t.nodes ==>
              && CursorsAgree(t, n)
              && forall r :: r in t.revisions && t.revisions[r].node == n ==> r <= t.nodes[n].desired
    ensures var t := Run(EmptyTables, steps); forall r :: r in t.revisions <==> 1 <= r <= t.last
  {
    Reachable(steps);
    hide Run;
    var t := Run(EmptyTables, steps);
    forall r | r in t.revisions && n in t.nodes && t.revisions[r].node == n ensures r <= t.nodes[n].desired {
      assert TargetKnown(t, r);
    }
  }

  /** In every reachable state every stored document fits its column, which bounds its users at 6,165, far
      below the document's own limit of 10,000. */
  lemma StoredDocumentsFit(steps: seq<Step>, r: nat)
    requires r in Run(EmptyTables, steps).revisions
    ensures var v := Run(EmptyTables, steps).revisions[r];
            ArtifactLength(v.configuration, r, |v.members| + 1) <= MAX_ARTIFACT && |v.members| + 1 <= 6_165 < MAX_USERS
  {
    hide Run, LogInv, CredentialInv, CanonicalUsers, CanonicalConfiguration, ValidConfiguration, MemberUsers;
    Reachable(steps);
    var t := Run(EmptyTables, steps);
    assert DocumentFaithful(t, r);
    ArtifactBindsFirst(t.revisions[r].configuration, r, |t.revisions[r].members| + 1);
  }

  // ----- publication by account operations -----

  predicate AccountStep(step: Step) {
    step.DoReplaceNodes? || step.DoSetStatus? || step.DoRotateAccount?
  }

  /** A committed account operation republishes every node whose user set it changes; every new revision
      snapshots its node's user set at commit; every other node's user set is unchanged. */
  lemma AccountOperationsPublishPolicy(steps: seq<Step>, step: Step)
    requires AccountStep(step)
    ensures var t := Run(EmptyTables, steps); Commits(t, step).Ok? ==> PolicyPublished(t, Commits(t, step).value)
  {
    hide Run, Inv, Grows, PolicyPublished, ReplaceNodes, SetStatus, RotateAccount;
    Reachable(steps);
    var t := Run(EmptyTables, steps);
    if Commits(t, step).Ok? {
      var q := Commits(t, step).value;
      match step {
        case DoReplaceNodes(u, requested, ids, seeds) => ReplaceNodesStepKeeps(t, u, requested, ids, seeds, q);
        case DoSetStatus(u, status, ids, seeds) => SetStatusStepKeeps(t, u, status, ids, seeds, q);
        case DoRotateAccount(u, trigger, ids, seeds) => RotateAccountStepKeeps(t, u, trigger, ids, seeds, q);
      }
    }
  }

  lemma StaysReady(t: Tables, c: Tables, u: UserId)
    requires Inv(t) && c.nodes == t.nodes
    ensures forall n :: n in NodesWith(t, u, Enabled) ==> Ready(c, n)
  {
  }

  /** Once its credentials are rotated, an account's republication commits exactly when there is
      capacity; node status and missing baselines never make it fail. */
  lemma RotationFailsOnlyForCapacity(t: Tables, u: UserId, trigger: RotationTrigger, ids: NodeId -> CredentialId,
                                     seeds: NodeId -> DesiredUser, c: Tables)
    requires Inv(t) && u in t.accounts && RotateCredentials(t, u, ids) == Ok(c)
    requires t.accounts[u] == AccountActive || (trigger == DeviceRevoked
             || (trigger != ResetTokenConsumed && t.accounts[u] != AccountDeleted))
    ensures RotateAccount(t, u, trigger, ids, seeds).Ok? <==> HasCapacity(c, NodesWith(t, u, Enabled))
    ensures RotateAccount(t, u, trigger, ids, seeds).Err? ==>
              CapacityError(RotateAccount(t, u, trigger, ids, seeds).error)
  {
    hide Inv, RotateCredentials, PublishAll, HasCapacity, Ready, Closes, Compiled;
    RotateCommits(t, u, ids, c);
    StaysReady(t, c, u);
    PublishAllCommits(c, NodesWith(t, u, Enabled), seeds);
  }

  lemma StatusChangeFailsOnlyForCapacity(t: Tables, u: UserId, requested: AccountStatus, ids: NodeId -> CredentialId,
                                         seeds: NodeId -> DesiredUser, c: Tables)
    requires Inv(t) && u in t.accounts && t.accounts[u] != AccountDeleted && t.accounts[u] != requested
    requires ApplyStatus(t, u, requested, ids) == Ok(c)
    ensures SetStatus(t, u, requested, ids, seeds).Ok? <==> HasCapacity(c, NodesWith(t, u, Enabled))
    ensures SetStatus(t, u, requested, ids, seeds).Err? ==> CapacityError(SetStatus(t, u, requested, ids, seeds).error)
  {
    hide Inv, ApplyStatus, PublishAll, HasCapacity, Ready, Closes, Compiled;
    ApplyStatusKeeps(t, u, requested, ids, c);
    PublishableIsEnabled(t, u);
    StaysReady(t, c, u);
    PublishAllCommits(c, NodesWith(t, u, Enabled), seeds);
  }

  predicate HasBaseline(t: Tables, n: NodeId) {
    n in t.nodes && t.nodes[n].desired > 0
  }

  /** An admitted replacement commits exactly when every newly enabled node already has a baseline
      revision and there is capacity: a missing baseline is the only other reason to fail. */
  lemma ReplacementNeedsBaselines(t: Tables, u: UserId, requested: set<NodeId>, ids: NodeId -> CredentialId,
                                  seeds: NodeId -> DesiredUser)
    requires Inv(t) && ReplaceAdmitted(t, u, requested, ids)
    ensures var enable := ToEnable(t, u, requested);
            var disable := ToDisable(t, u, requested);
            var c := ReplacedTables(t, u, enable, disable, ids);
            ReplaceNodes(t, u, requested, ids, seeds).Ok? <==>
              (forall n :: n in enable ==> HasBaseline(t, n)) && HasCapacity(c, enable + disable)
  {
    hide Inv, ReplaceNodes, PublishAll, HasCapacity, Closes, Compiled, FreshFor;
    var enable := ToEnable(t, u, requested);
    var disable := ToDisable(t, u, requested);
    var c := ReplacedTables(t, u, enable, disable, ids);
    ReplaceUnfolds(t, u, requested, ids, seeds);
    ReplaceSetsHold(t, u, requested);
    forall n | n in enable ensures n in t.nodes && t.nodes[n].status == NodeActive {
      assert n !in Unassignable(t, requested);
    }
    if ReplaceNodes(t, u, requested, ids, seeds).Ok? {
      PublishAllNeedsReady(c, enable + disable, seeds);
    }
    if forall n :: n in enable ==> HasBaseline(t, n) {
      ReplaceCommits(t, u, enable, disable, ids, c);
      StaysReady(t, c, u);
      PublishAllCommits(c, enable + disable, seeds);
    }
  }

  // ----- what the operations mean for a user -----

  /** The user's credential on node `n` that policy now prescribes is exactly `c`. */
  ghost predicate ServedBy(q: Tables, u: UserId, n: NodeId, c: CredentialId) {
    && c in q.credentials && q.credentials[c].user == u && c in Compiled(q, n)
    && forall d :: d in Compiled(q, n) && q.credentials[d].user == u ==> d == c
  }

  ghost predicate NotServed(q: Tables, u: UserId, n: NodeId) {
    forall d :: d in Compiled(q, n) ==> q.credentials[d].user != u
  }

  lemma ServedOnce(q: Tables, u: UserId, n: NodeId, c: CredentialId)
    requires Inv(q) && c in Compiled(q, n) && q.credentials[c].user == u
    ensures ServedBy(q, u, n, c)
  {
    forall d | d in Compiled(q, n) && q.credentials[d].user == u ensures d == c {
      OneLiveCredential(q, c, d);
    }
  }

  /** After a replacement the account is enabled on exactly the requested nodes; each newly enabled node
      serves it with the newly issued credential, and no omitted node serves it. */
  lemma ReplacementMeaning(t: Tables, u: UserId, requested: set<NodeId>, ids: NodeId -> CredentialId,
                           seeds: NodeId -> DesiredUser, q: Tables)
    requires Inv(t) && ReplaceNodes(t, u, requested, ids, seeds) == Ok(q)
    ensures NodesWith(q, u, Enabled) == requested
    ensures forall n :: n in ToEnable(t, u, requested) ==> ServedBy(q, u, n, ids(n))
    ensures forall n :: n !in requested ==> NotServed(q, u, n)
  {
    hide Inv, ReplaceNodes, Closes, Published, Compiled;
    var enable := ToEnable(t, u, requested);
    var disable := ToDisable(t, u, requested);
    var c := ReplaceNodesChanges(t, u, requested, ids, seeds, q);
    PublishedCredentials(c, q, enable + disable);
    ReplacedAssignments(t, u, requested, ids, c);
    forall n | n in enable ensures ServedBy(q, u, n, ids(n)) {
      IssuedIsServed(t, u, enable, disable, ids, c, n);
      SamePolicy(c, q, n);
      ServedOnce(q, u, n, ids(n));
    }
    forall n | n !in requested ensures NotServed(q, u, n) {
      DisabledIsNotServed(q, u, n);
    }
  }

  lemma ReplacedAssignments(t: Tables, u: UserId, requested: set<NodeId>, ids: NodeId -> CredentialId, c: Tables)
    requires ReplaceAdmitted(t, u, requested, ids)
    requires c == ReplacedTables(t, u, ToEnable(t, u, requested), ToDisable(t, u, requested), ids)
    ensures NodesWith(c, u, Enabled) == requested
  {
    assert c.assignments == Reassign(t.assignments, u, ToEnable(t, u, requested), ToDisable(t, u, requested));
    assert requested * NodesWith(t, u, Deleted) == {};
    hide ReplacedTables, ReplaceAdmitted, Reassign;
    forall n ensures n in NodesWith(c, u, Enabled) <==> n in requested {
      ReplacedAssignment(t, u, requested, c.assignments, n);
      EnabledOn(c, u, n);
    }
  }

  lemma EnabledOn(t: Tables, u: UserId, n: NodeId)
    ensures n in NodesWith(t, u, Enabled) <==> Pair(u, n) in t.assignments && t.assignments[Pair(u, n)] == Enabled
    ensures n in NodesWith(t, u, Deleted) <==> Pair(u, n) in t.assignments && t.assignments[Pair(u, n)] == Deleted
  {
  }

  lemma ReplacedAssignment(t: Tables, u: UserId, requested: set<NodeId>, b: map<Pair, AssignmentStatus>, n: NodeId)
    requires requested * NodesWith(t, u, Deleted) == {}
    requires b == Reassign(t.assignments, u, ToEnable(t, u, requested), ToDisable(t, u, requested))
    ensures n in requested <==> Pair(u, n) in b && b[Pair(u, n)] == Enabled
  {
    EnabledOn(t, u, n);
    assert n in requested && n in NodesWith(t, u, Deleted) ==> n in requested * NodesWith(t, u, Deleted);
    ReassignedRows(t.assignments, u, ToEnable(t, u, requested), ToDisable(t, u, requested));
    hide Reassign, NodesWith;
  }

  lemma IssuedIsServed(t: Tables, u: UserId, enable: set<NodeId>, disable: set<NodeId>, ids: NodeId -> CredentialId,
                       c: Tables, n: NodeId)
    requires FreshFor(t.credentials, enable, ids) && enable !! disable && n in enable
    requires u in t.accounts && t.accounts[u] == AccountActive
    requires c == ReplacedTables(t, u, enable, disable, ids)
    ensures ids(n) in Compiled(c, n) && c.credentials[ids(n)].user == u
  {
    assert c.credentials == Change(t.credentials, u, enable, disable, ids);
    ChangedRows(t.credentials, u, enable, disable, ids);
    ReassignedRows(t.assignments, u, enable, disable);
    hide Change, Reassign, FreshFor;
  }

  lemma DisabledIsNotServed(q: Tables, u: UserId, n: NodeId)
    requires n !in NodesWith(q, u, Enabled)
    ensures NotServed(q, u, n)
  {
  }

  /** A disabled or deleted account is served nowhere; a reactivated one is served on each enabled node
      by a newly issued credential. */
  lemma StatusMeaning(t: Tables, u: UserId, requested: AccountStatus, ids: NodeId -> CredentialId,
                      seeds: NodeId -> DesiredUser, q: Tables)
    requires Inv(t) && SetStatus(t, u, requested, ids, seeds) == Ok(q) && t.accounts[u] != requested
    ensures u in q.accounts && q.accounts[u] == requested
    ensures requested != AccountActive ==> forall n :: NotServed(q, u, n)
    ensures requested == AccountActive ==> forall n :: n in NodesWith(t, u, Enabled) ==> ServedBy(q, u, n, ids(n))
    ensures requested == AccountDeleted ==> NodesWith(q, u, Enabled) == {} == NodesWith(q, u, Disabled)
  {
    hide Inv, SetStatus, Closes, Published, Compiled, ApplyStatus, ServedBy, NodesWith;
    SetStatusNeedsAccount(t, u, requested, ids, seeds);
    var c := SetStatusChanges(t, u, requested, ids, seeds, q);
    PublishedCredentials(c, q, NodesWith(t, u, Enabled));
    AppliedAccounts(t, u, requested, ids, c);
    forall n ensures requested != AccountActive ==> NotServed(q, u, n) {
      InactiveIsNotServed(q, u, n);
    }
    if requested == AccountActive {
      AppliedIsRotated(t, u, ids, c);
      forall n | n in NodesWith(t, u, Enabled) ensures ServedBy(q, u, n, ids(n)) {
        ReissuedIsServed(t, u, ids, c, n);
        SamePolicy(c, q, n);
        ServedOnce(q, u, n, ids(n));
      }
    }
    if requested == AccountDeleted {
      DeletedAssignments(t, u, ids, c);
      SameAssignmentNodes(c, q, u);
    }
  }

  lemma AppliedIsRotated(t: Tables, u: UserId, ids: NodeId -> CredentialId, c: Tables)
    requires ApplyStatus(t, u, AccountActive, ids) == Ok(c)
    ensures RotateCredentials(t.(accounts := t.accounts[u := AccountActive]), u, ids) == Ok(c)
  {
  }

  lemma SetStatusNeedsAccount(t: Tables, u: UserId, requested: AccountStatus, ids: NodeId -> CredentialId,
                              seeds: NodeId -> DesiredUser)
    requires SetStatus(t, u, requested, ids, seeds).Ok?
    ensures u in t.accounts
  {
  }

  lemma SameAssignmentNodes(c: Tables, q: Tables, u: UserId)
    requires c.assignments == q.assignments
    ensures forall s :: NodesWith(c, u, s) == NodesWith(q, u, s)
  {
  }

  lemma DeletedAssignments(t: Tables, u: UserId, ids: NodeId -> CredentialId, c: Tables)
    requires ApplyStatus(t, u, AccountDeleted, ids) == Ok(c)
    ensures NodesWith(c, u, Enabled) == {} && NodesWith(c, u, Disabled) == {}
  {
  }

  lemma InactiveIsNotServed(q: Tables, u: UserId, n: NodeId)
    requires u in q.accounts
    ensures q.accounts[u] != AccountActive ==> NotServed(q, u, n)
  {
  }

  lemma ReissuedIsServed(t: Tables, u: UserId, ids: NodeId -> CredentialId, c: Tables, n: NodeId)
    requires u in t.accounts && n in NodesWith(t, u, Enabled)
    requires RotateCredentials(t.(accounts := t.accounts[u := AccountActive]), u, ids) == Ok(c)
    ensures ids(n) in Compiled(c, n) && c.credentials[ids(n)].user == u
  {
    hide Change, FreshFor, RotateCredentials;
    var marked := t.(accounts := t.accounts[u := AccountActive]);
    assert NodesWith(marked, u, Enabled) == NodesWith(t, u, Enabled);
    EnabledPair(t, u, n);
    RotateIsChange(marked, u, ids, c);
    ChangedRows(t.credentials, u, NodesWith(t, u, Enabled), {}, ids);
    hide NodesWith;
  }

  lemma EnabledPair(t: Tables, u: UserId, n: NodeId)
    requires n in NodesWith(t, u, Enabled)
    ensures Pair(u, n) in t.assignments && t.assignments[Pair(u, n)] == Enabled
  {
  }

  /** After a rotation every older credential of the account's enabled assignments is revoked, and on each
      of them a new pending credential exists; it is served exactly when the account is active. */
  lemma RotationMeaning(t: Tables, u: UserId, trigger: RotationTrigger, ids: NodeId -> CredentialId,
                        seeds: NodeId -> DesiredUser, q: Tables)
    requires Inv(t) && RotateAccount(t, u, trigger, ids, seeds) == Ok(q)
    ensures forall x :: x in t.credentials && Of(t.credentials[x], u, NodesWith(t, u, Enabled)) ==>
              x in q.credentials && q.credentials[x].status == Revoked
    ensures forall n :: n in NodesWith(t, u, Enabled) ==>
              ids(n) !in t.credentials && ids(n) in q.credentials && q.credentials[ids(n)].status == Pending
    ensures forall n :: n in NodesWith(t, u, Enabled) ==>
              if t.accounts[u] == AccountActive then ServedBy(q, u, n, ids(n)) else NotServed(q, u, n)
  {
    hide Inv, RotateAccount, Closes, Published, Compiled, RotateCredentials, ServedBy, NotServed;
    var ns := NodesWith(t, u, Enabled);
    var c := RotateAccountChanges(t, u, trigger, ids, seeds, q);
    RotateNeedsAccount(t, u, trigger, ids, seeds);
    PublishedCredentials(c, q, ns);
    RotatedRows(t, u, ids, c);
    forall n | n in ns ensures if t.accounts[u] == AccountActive then ServedBy(q, u, n, ids(n))
        else NotServed(q, u, n) {
      if t.accounts[u] == AccountActive {
        assert t.(accounts := t.accounts[u := AccountActive]) == t;
        ReissuedIsServed(t, u, ids, c, n);
        SamePolicy(c, q, n);
        ServedOnce(q, u, n, ids(n));
      } else {
        InactiveIsNotServed(q, u, n);
      }
    }
  }

  lemma RotateNeedsAccount(t: Tables, u: UserId, trigger: RotationTrigger, ids: NodeId -> CredentialId,
                           seeds: NodeId -> DesiredUser)
    requires RotateAccount(t, u, trigger, ids, seeds).Ok?
    ensures u in t.accounts
  {
  }

  lemma RotatedRows(t: Tables, u: UserId, ids: NodeId -> CredentialId, c: Tables)
    requires RotateCredentials(t, u, ids) == Ok(c)
    ensures c.accounts == t.accounts && c.assignments == t.assignments
    ensures forall x :: x in t.credentials && Of(t.credentials[x], u, NodesWith(t, u, Enabled)) ==>
              x in c.credentials && c.credentials[x].status == Revoked
    ensures forall n :: n in NodesWith(t, u, Enabled) ==>
              ids(n) !in t.credentials && ids(n) in c.credentials && c.credentials[ids(n)].status == Pending
  {
  }

  /** Disabling or revoking a node closes it to every member at once; other nodes keep their policies.
      A revoked node never comes back. */
  lemma LifecycleMeaning(t: Tables, n: NodeId, action: LifecycleAction, q: Tables)
    requires Inv(t) && Transition(t, n, action) == Ok(q)
    ensures Some(q.nodes[n].status) == LifecycleTarget(action, t.nodes[n].status)
    ensures action != Approve ==> Compiled(q, n) == {} && forall u :: n !in NodesWith(q, u, Enabled)
    ensures action == Revoke ==> forall u :: n !in NodesWith(q, u, Disabled)
    ensures forall m :: m != n || action == Approve ==> Compiled(q, m) == Compiled(t, m)
    ensures t.nodes[n].status == NodeRevoked ==> q.nodes[n].status == NodeRevoked
  {
    hide Inv, Compiled, Transition;
    TransitionRows(t, n, action, q);
    if action != Approve {
      ClosedNode(t, n, action, q);
    }
    forall m | m != n || action == Approve ensures Compiled(q, m) == Compiled(t, m) {
      ElsewhereSame(t, n, action, q, m);
    }
  }

  lemma TransitionRows(t: Tables, n: NodeId, action: LifecycleAction, q: Tables)
    requires Transition(t, n, action) == Ok(q)
    ensures n in t.nodes && n in q.nodes && Some(q.nodes[n].status) == LifecycleTarget(action, t.nodes[n].status)
    ensures q.accounts == t.accounts
    ensures q.assignments == CloseAssignments(t.assignments, n, action)
    ensures q.credentials == if action == Approve then t.credentials else RevokeNode(t.credentials, n)
  {
  }

  lemma ClosedNode(t: Tables, n: NodeId, action: LifecycleAction, q: Tables)
    requires action != Approve && q.assignments == CloseAssignments(t.assignments, n, action)
    requires q.credentials == RevokeNode(t.credentials, n)
    ensures Compiled(q, n) == {} && forall u :: n !in NodesWith(q, u, Enabled)
    ensures action == Revoke ==> forall u :: n !in NodesWith(q, u, Disabled)
  {
  }

  lemma ElsewhereSame(t: Tables, n: NodeId, action: LifecycleAction, q: Tables, m: NodeId)
    requires m != n || action == Approve
    requires q.accounts == t.accounts && q.assignments == CloseAssignments(t.assignments, n, action)
    requires q.credentials == if action == Approve then t.credentials else RevokeNode(t.credentials, n)
    ensures Compiled(q, m) == Compiled(t, m)
  {
    forall c ensures c in Compiled(q, m) <==> c in Compiled(t, m) {
      if c in t.credentials && t.credentials[c].node == m {
        assert q.credentials[c] == t.credentials[c];
        var a := Pair(t.credentials[c].user, m);
        assert a in t.assignments ==> q.assignments[a] == t.assignments[a];
      }
    }
  }

  /** A recorded applied or rolled-back report moves the node's credentials to what the applied snapshot
      prescribes and touches no other node; any other report touches no credential. */
  lemma ReportMeaning(t: Tables, n: NodeId, revision: nat, r: RevisionResult, q: Tables, c: CredentialId)
    requires Inv(t) && RecordResult(t, n, revision, r) == Ok(q) && q != t && c in t.credentials
    ensures ResultKey(revision, r.state) in q.journal && q.journal[ResultKey(revision, r.state)] == r
    ensures c in q.credentials && q.credentials[c].(status := t.credentials[c].status) == t.credentials[c]
    ensures t.credentials[c].node != n || !Settles(r) ==> q.credentials[c] == t.credentials[c]
    ensures t.credentials[c].node == n && Settles(r) ==>
              q.credentials[c].status == Settled(t.credentials[c].status, InApplied(q, c))
    ensures n in t.nodes && n in q.nodes
    ensures r.state == RolledBack ==> Some(q.nodes[n].applied) == r.rollback
    ensures r.state == Applied ==> q.nodes[n].applied == Max(t.nodes[n].applied, revision)
  {
    hide Inv, RecordResult, InApplied;
    RecordCases(t, n, revision, r, q);
    RecordJournals(t, n, revision, r, q);
    if t.credentials[c].node == n && Settles(r) {
      SettledInApplied(t, n, q, c);
    }
  }

  predicate Settles(r: RevisionResult) {
    r.state == Applied || r.state == RolledBack
  }

  /** Where a status goes when the applied snapshot is (not) the credential's home. */
  function Settled(s: CredentialStatus, inApplied: bool): CredentialStatus {
    match s
    case Pending => if inApplied then Active else Pending
    case Active => if inApplied then Active else Revoked
    case Retiring => if inApplied then Retiring else Revoked
    case Revoked => Revoked
  }

  lemma SettledInApplied(t: Tables, n: NodeId, q: Tables, c: CredentialId)
    requires n in q.nodes && q.nodes[n].applied in t.revisions && q.revisions == t.revisions
    requires q.credentials == SettleNode(t.credentials, n, t.revisions[q.nodes[n].applied].members)
    requires c in t.credentials && t.credentials[c].node == n
    ensures c in q.credentials && q.credentials[c].node == n
    ensures q.credentials[c].status == Settled(t.credentials[c].status, InApplied(q, c))
  {
  }

  lemma RecordJournals(t: Tables, n: NodeId, revision: nat, r: RevisionResult, q: Tables)
    requires RecordResult(t, n, revision, r) == Ok(q) && q != t
    ensures ResultKey(revision, r.state) in q.journal && q.journal[ResultKey(revision, r.state)] == r
    ensures r.state == RolledBack ==> r.rollback.Some?
  {
  }

  // ----- provisioning state -----

  /** What an account summary calls `applied`: the applied snapshot of the node holds a live credential of
      the assignment. */
  ghost predicate ShownApplied(t: Tables, a: Pair) {
    && a in t.assignments && t.assignments[a] == Enabled
    && a.user in t.accounts && t.accounts[a.user] == AccountActive
    && exists c :: c in t.credentials && t.credentials[c].user == a.user && t.credentials[c].node == a.node
                   && Live(t.credentials[c].status) && InApplied(t, c)
  }

  ghost predicate HasActive(t: Tables, a: Pair) {
    exists c :: c in t.credentials && t.credentials[c].user == a.user && t.credentials[c].node == a.node
                && t.credentials[c].status == Active
  }

  /** The summary is truthful: in every reachable state an enabled assignment of an active account is
      shown as applied exactly when it has an active credential. */
  lemma ShownAppliedIsActive(steps: seq<Step>, a: Pair)
    requires a in Run(EmptyTables, steps).assignments && Run(EmptyTables, steps).assignments[a] == Enabled
    requires a.user in Run(EmptyTables, steps).accounts && Run(EmptyTables, steps).accounts[a.user] == AccountActive
    ensures ShownApplied(Run(EmptyTables, steps), a) <==> HasActive(Run(EmptyTables, steps), a)
  {
    hide Run, Inv;
    Reachable(steps);
    var t := Run(EmptyTables, steps);
    forall c | c in t.credentials && Live(t.credentials[c].status)
      ensures InApplied(t, c) <==> t.credentials[c].status == Active
    {
      InvDecides(t, c);
    }
    hide InApplied;
  }

  lemma InvDecides(t: Tables, c: CredentialId)
    requires Inv(t) && c in t.credentials
    ensures DecidedByApplied(t, c)
  {
  }

  // ----- rollback answers -----

  /** Once answered, a rollback key gives the same answer for the same targets in any order after any
      further run, and publishes nothing. */
  lemma RollbackAnswersForever(t: Tables, key: RollbackKey, targets: seq<RollbackTarget>, reason: RollbackReason,
                               seeds: NodeId -> DesiredUser, out: RolledOut, more: seq<Step>,
                                   again: seq<RollbackTarget>,
                               seedsAgain: NodeId -> DesiredUser)
    requires Inv(t) && OperatorRollback(t, key, targets, reason, seeds) == Ok(out)
    requires ValidTargets(again) && multiset(again) == multiset(targets)
    ensures var later := Run(out.tables, more);
            OperatorRollback(later, key, again, reason, seedsAgain) == Ok(RolledOut(later, out.publications))
  {
    hide Inv, OperatorRollback, Run;
    RollbackKeepsInv(t, key, targets, reason, seeds, out);
    RunKeeps(out.tables, more);
    var later := Run(out.tables, more);
    assert ReplaysGrow(out.tables, later);
    RollbackReplays(later, key, targets, reason, out.publications, again, reason, seedsAgain);
  }

  // ----- enrollment and repeated reports -----

  /** A node enrolled without a configuration waits for approval with no revision; one enrolled with a
      configuration is active at once on a revision without members. */
  lemma EnrollmentMeaning(t: Tables, n: NodeId, xray: bool, agentVersion: string, bootstrap: Option<Configuration>,
                          seed: DesiredUser, q: Tables)
    requires Inv(t) && Enroll(t, n, xray, agentVersion, bootstrap, seed) == Ok(q)
    ensures n !in t.nodes && n in q.nodes && NoProgressYet(q.nodes[n]) && Compiled(q, n) == {}
    ensures bootstrap.None? ==> q.nodes[n].status == NodePending && q.nodes[n].desired == 0 && q.last == t.last
    ensures bootstrap.Some? ==>
              && xray && q.nodes[n].status == NodeActive && q.nodes[n].desired == q.last == t.last + 1
                 && q.last in q.revisions
              && q.revisions[q.last].node == n && q.revisions[q.last].members == {}
              && q.revisions[q.last].configuration == CanonicalConfiguration(bootstrap.value)
  {
    UnknownNodeHasNoPolicy(t, n);
    hide Inv, CanonicalUsers, CanonicalConfiguration, AcceptableUsers, ValidConfiguration, MemberUsers;
    assert q.credentials == t.credentials && q.assignments == t.assignments && q.accounts == t.accounts;
    assert Compiled(q, n) == Compiled(t, n);
  }

  predicate NoProgressYet(node: Node) {
    node.reported == 0 && node.received == 0 && node.validated == 0 && node.applied == 0
  }

  lemma UnknownNodeHasNoPolicy(t: Tables, n: NodeId)
    requires Inv(t) && n !in t.nodes
    ensures Compiled(t, n) == {}
  {
  }

  /** A report may be repeated: once recorded, the same report is accepted again and changes nothing. */
  lemma RepeatedReportChangesNothing(t: Tables, n: NodeId, revision: nat, r: RevisionResult, q: Tables)
    requires Inv(t) && RecordResult(t, n, revision, r) == Ok(q)
    ensures RecordResult(q, n, revision, r) == Ok(q)
  {
    hide Inv, LogInv, AdvanceCursors, ValidResult, Latest, DependenciesMet, SettleNode, TransitionAllowed;
    InvLog(t);
    if q != t {
      NowLatest(t, n, revision, r, q);
      RecordCases(t, n, revision, r, q);
      SameTarget(t, n, revision, r);
      CursorsKeepStatus(t.nodes[n], revision, r);
      SameIsAllowed(r);
    }
  }

  lemma SameIsAllowed(r: RevisionResult)
    ensures TransitionAllowed(Some(r), r)
  {
  }

  lemma CursorsKeepStatus(node: Node, revision: nat, r: RevisionResult)
    ensures AdvanceCursors(node, revision, r).status == node.status && AdvanceCursors(node, revision, r).desired
            == node.desired
  {
  }

  lemma SameTarget(t: Tables, n: NodeId, revision: nat, r: RevisionResult)
    requires RecordResult(t, n, revision, r).Ok?
    ensures revision != 0 && ValidResult(r, revision) && n in t.nodes
    ensures t.nodes[n].status == NodePending || t.nodes[n].status == NodeActive
    ensures t.nodes[n].desired == 0 || revision <= t.nodes[n].desired
    ensures revision in t.revisions && t.revisions[revision].node == n
  {
  }

  /** A newly recorded result is the highest-ranked one of its revision. */
  lemma NowLatest(t: Tables, n: NodeId, revision: nat, r: RevisionResult, q: Tables)
    requires LogInv(t) && RecordResult(t, n, revision, r) == Ok(q) && q != t
    ensures Latest(q, revision) == Some(r)
  {
    hide LogInv, RecordResult, JournalSound, DependenciesMet, AdvanceCursors, Latest;
    LogJournal(t);
    RecordResultRecords(t, n, revision, r, q);
    assert Latest(t, revision) != Some(r) by { NotReplayed(t, n, revision, r, q); }
    StateOutranks(t, n, revision, r);
    HighestIsLatest(t, q, revision, r);
  }

  lemma NotReplayed(t: Tables, n: NodeId, revision: nat, r: RevisionResult, q: Tables)
    requires RecordResult(t, n, revision, r) == Ok(q) && q != t
    ensures Latest(t, revision) != Some(r)
  {
  }

  lemma HighestIsLatest(t: Tables, q: Tables, revision: nat, r: RevisionResult)
    requires q.journal == t.journal[ResultKey(revision, r.state) := r]
    requires forall s :: ResultKey(revision, s) in t.journal ==> Rank(s) < Rank(r.state)
    ensures Latest(q, revision) == Some(r)
  {
    forall s | s != r.state && Rank(s) >= Rank(r.state) ensures ResultKey(revision, s) !in q.journal {
      assert ResultKey(revision, s) in t.journal ==> Rank(s) < Rank(r.state);
    }
    assert ResultKey(revision, Applied) in q.journal ==> Rank(Applied) < Rank(r.state) || r.state == Applied;
    assert ResultKey(revision, Rejected) in q.journal ==> Rank(Rejected) < Rank(r.state) || r.state == Rejected;
    assert ResultKey(revision, RolledBack) in q.journal ==> Rank(RolledBack) < Rank(r.state) || r.state == RolledBack;
    assert ResultKey(revision, Validated) in q.journal ==> Rank(Validated) < Rank(r.state) || r.state == Validated;
  }

  /** What is already recorded of the revision ranks below the new result. */
  lemma StateOutranks(t: Tables, n: NodeId, revision: nat, r: RevisionResult)
    requires JournalSound(t) && RecordResult(t, n, revision, r).Ok? && Latest(t, revision) != Some(r)
    ensures forall s :: ResultKey(revision, s) in t.journal ==> Rank(s) < Rank(r.state)
  {
  }
}
