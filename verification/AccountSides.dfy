/** Which publication steps touch account statuses, and how. */
module AccountSides {
  import opened Domain
  import opened DesiredState
  import opened Plane
  import opened Publication
  import opened Accounts
  import opened Nodes
  import opened Operator
  import opened Rollback
  import opened ControlRuns

  /** Steps that change an account happen only inside an account transaction. */
  predicate LeavesAccounts(s: Step) {
    !s.DoCreateAccount? && !s.DoSetStatus? && !s.DoRotateAccount?
  }

  lemma PublishCompiledAccounts(t: Tables, n: NodeId, configuration: Configuration, seed: DesiredUser, q: Tables)
    requires PublishCompiled(t, n, configuration, seed) == Ok(q)
    ensures q.accounts == t.accounts
  {
    hide Compiled, AcceptableUsers, ValidConfiguration, DuplicateUser;
  }

  lemma {:induction false} PublishTargetsAccounts(t: Tables, targets: seq<RollbackTarget>,
                                                  configurations: seq<Configuration>,
                                                  seeds: NodeId -> DesiredUser, out: RolledOut)
    requires |targets| == |configurations| && PublishTargets(t, targets, configurations, seeds) == Ok(out)
    ensures out.tables.accounts == t.accounts
    decreases |targets|
  {
    hide PublishCompiled;
    if targets != [] {
      var next := PublishCompiled(t, targets[0].node, configurations[0], seeds(targets[0].node)).value;
      PublishCompiledAccounts(t, targets[0].node, configurations[0], seeds(targets[0].node), next);
      var rest := PublishTargets(next, targets[1..], configurations[1..], seeds).value;
      PublishTargetsAccounts(next, targets[1..], configurations[1..], seeds, rest);
    }
  }

  lemma OperatorKeepsAccounts(t: Tables, step: Step)
    requires Inv(t)
    requires step.DoPublish? || step.DoReconcile? || step.DoRotateCanary? || step.DoRollback?
    ensures After(t, step).accounts == t.accounts
  {
    hide Inv, PublishCompiled, PublishTargets, PrepareAll, Reconciles, Reconcile, OperatorRollback;
    match Commits(t, step) {
      case Err(_) =>
      case Ok(q) =>
        match step {
          case DoPublish(n, configuration, seed) => PublishCompiledAccounts(t, n, configuration, seed, q);
          case DoReconcile(n, seed) =>
            var out := Reconcile(t, n, seed).value;
            ReconcileCases(t, n, seed, out);
            if out.created {
              PublishCompiledAccounts(t, n, t.revisions[t.nodes[n].desired].configuration, seed, q);
            }
          case DoRotateCanary(n, seed) => RotateCanaryAccounts(t, n, seed, q);
          case DoRollback(key, targets, reason, seeds) =>
            RollbackAccounts(t, key, targets, reason, seeds, OperatorRollback(t, key, targets, reason, seeds).value);
        }
    }
  }

  lemma RotateCanaryAccounts(t: Tables, n: NodeId, seed: DesiredUser, q: Tables)
    requires RotateCanary(t, n, seed) == Ok(q)
    ensures q.accounts == t.accounts
  {
    hide PublishCompiled;
    var next := if n in t.canaries
                then Canary(seed, t.canaries[n].generation + 1, t.canaries[n].retired
                    + {t.canaries[n].identity.credential})
                else Canary(seed, 1, {});
    PublishCompiledAccounts(t.(canaries := t.canaries[n := next]), n, LatestConfiguration(t, n).value, seed, q);
  }

  lemma RollbackAccounts(t: Tables, key: RollbackKey, targets: seq<RollbackTarget>, reason: RollbackReason,
                         seeds: NodeId -> DesiredUser, out: RolledOut)
    requires OperatorRollback(t, key, targets, reason, seeds) == Ok(out)
    ensures out.tables.accounts == t.accounts
  {
    if key in t.replays {
      hide PublishTargets, PrepareAll;
    } else {
      hide OperatorRollback, PublishTargets, PrepareAll;
      RollbackUnfolds(t, key, targets, reason, seeds, out);
      var ordered := Ordered(targets);
      var configurations := PrepareAll(t, ordered).value;
      PublishTargetsAccounts(t, ordered, configurations, seeds, PublishTargets(t, ordered, configurations,
          seeds).value);
    }
  }

  /** Steps outside account transactions leave every account status alone. */
  lemma PlaneKeepsAccounts(t: Tables, step: Step)
    requires Inv(t) && LeavesAccounts(step)
    ensures After(t, step).accounts == t.accounts
  {
    hide Inv, Enroll, RecordResult, ReplaceNodes, AccountChange;
    match Commits(t, step) {
      case Err(_) =>
      case Ok(q) =>
        match step {
          case DoEnroll(n, xray, version, bootstrap, seed) => EnrolledTables(t, n, xray, version, bootstrap, seed, q);
          case DoRecord(n, revision, r) =>
            if q != t {
              RecordCases(t, n, revision, r, q);
            }
          case DoReplaceNodes(u, requested, ids, seeds) => ReplaceKeepsAccounts(t, u, requested, ids, seeds, q);
          case DoTransition(_, _) =>
          case DoReport(_, _, _) =>
          case _ => OperatorKeepsAccounts(t, step);
        }
    }
  }

  lemma ReplaceKeepsAccounts(t: Tables, u: UserId, requested: set<NodeId>, ids: NodeId -> CredentialId,
                             seeds: NodeId -> DesiredUser, q: Tables)
    requires Inv(t) && ReplaceNodes(t, u, requested, ids, seeds) == Ok(q)
    ensures q.accounts == t.accounts
  {
    hide Inv, ReplaceNodes, Published, Compiled, FreshFor, Reassign;
    var c := ReplaceNodesChanges(t, u, requested, ids, seeds, q);
    PublishedCredentials(c, q, ToEnable(t, u, requested) + ToDisable(t, u, requested));
  }

  lemma StatusSetsAccount(t: Tables, u: UserId, requested: AccountStatus, ids: NodeId -> CredentialId,
                          seeds: NodeId -> DesiredUser, q: Tables)
    requires Inv(t) && SetStatus(t, u, requested, ids, seeds) == Ok(q)
    ensures u in t.accounts && q.accounts == t.accounts[u := requested]
    ensures t.accounts[u] == AccountDeleted ==> requested == AccountDeleted
  {
    hide Inv, ApplyStatus, PublishAll, Published, Compiled;
    if t.accounts[u] != requested {
      var c := SetStatusChanges(t, u, requested, ids, seeds, q);
      AppliedAccounts(t, u, requested, ids, c);
      PublishedCredentials(c, q, NodesWith(t, u, Enabled));
    } else {
      assert t.accounts[u := requested] == t.accounts;
    }
  }

  lemma RotationKeepsAccounts(t: Tables, u: UserId, trigger: RotationTrigger, ids: NodeId -> CredentialId,
                              seeds: NodeId -> DesiredUser, q: Tables)
    requires Inv(t) && RotateAccount(t, u, trigger, ids, seeds) == Ok(q)
    ensures u in t.accounts && q.accounts == t.accounts
    ensures trigger != DeviceRevoked ==> t.accounts[u] != AccountDeleted
    ensures trigger == ResetTokenConsumed ==> t.accounts[u] == AccountActive
  {
    hide Inv, RotateCredentials, PublishAll, Published, Compiled;
    var c := RotateAccountChanges(t, u, trigger, ids, seeds, q);
    RotateIsChange(t, u, ids, c);
    PublishedCredentials(c, q, NodesWith(t, u, Enabled));
  }
}
