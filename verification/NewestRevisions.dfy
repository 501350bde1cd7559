/** What a node's newest revision says about access.  In every reachable state the revision's members, without
    those revoked since, are exactly the node's live policy. */
module NewestRevisions {
  import opened Domain
  import opened DesiredState
  import opened Plane
  import opened RevisionLog
  import opened Credentials
  import opened Publication
  import opened Accounts
  import opened Nodes
  import opened Operator
  import opened Rollback
  import opened ControlRuns
  import ControlTheorems

  function Unrevoked(t: Tables, members: set<CredentialId>): set<CredentialId> {
    set c | c in members && c in t.credentials && t.credentials[c].status != Revoked :: c
  }

  /** The node's newest revision, without its revoked members, is the live policy. */
  ghost predicate Tracked(t: Tables, n: NodeId)
    requires n in t.nodes
  {
    && t.nodes[n].desired in t.revisions
    && t.revisions[t.nodes[n].desired].members <= t.credentials.Keys
    && Compiled(t, n) == Unrevoked(t, t.revisions[t.nodes[n].desired].members)
  }

  ghost predicate Tracks(t: Tables) {
    forall n :: n in t.nodes && t.nodes[n].desired != 0 ==> Tracked(t, n)
  }

  // ----- two ways to stay tracked -----

  /** The newest revision is a snapshot of the policy. */
  ghost predicate Snapshot(q: Tables, n: NodeId) {
    && n in q.nodes && q.nodes[n].desired in q.revisions
    && q.revisions[q.nodes[n].desired].members == Compiled(q, n)
  }

  /** No new revision; the policy lost at most credentials that are now revoked. */
  ghost predicate Follows(t: Tables, q: Tables, n: NodeId) {
    && n in t.nodes && n in q.nodes && q.nodes[n].desired == t.nodes[n].desired
    && Compiled(q, n) <= Compiled(t, n)
    && forall c :: c in Compiled(t, n) && c !in Compiled(q, n) ==>
         c in q.credentials && q.credentials[c].status == Revoked
  }

  lemma SnapshotIsTracked(q: Tables, n: NodeId)
    requires Snapshot(q, n)
    ensures Tracked(q, n)
  {
  }

  lemma FollowsStaysTracked(t: Tables, q: Tables, n: NodeId)
    requires Follows(t, q, n) && Tracked(t, n) && RevisionsKept(t, q) && Advances(t.credentials, q.credentials)
    ensures Tracked(q, n)
  {
    hide InPolicy;
    var members := t.revisions[t.nodes[n].desired].members;
    LivePolicy(q, n);
    forall c | c in members && q.credentials[c].status != Revoked ensures c in Compiled(q, n) {
      assert StatusRank(t.credentials[c].status) <= StatusRank(q.credentials[c].status);
      assert c in Unrevoked(t, members);
    }
  }

  lemma LivePolicy(q: Tables, n: NodeId)
    ensures forall c :: c in Compiled(q, n) ==> c in q.credentials && q.credentials[c].status != Revoked
  {
  }

  ghost predicate StepTracks(t: Tables, q: Tables) {
    forall n :: n in q.nodes && q.nodes[n].desired != 0 ==> Snapshot(q, n) || Follows(t, q, n)
  }

  lemma TracksOn(t: Tables, q: Tables)
    requires Tracks(t) && Grows(t, q) && StepTracks(t, q)
    ensures Tracks(q)
  {
    hide Tracked, Snapshot, Advances;
    forall n | n in q.nodes && q.nodes[n].desired != 0 ensures Tracked(q, n) {
      if Snapshot(q, n) {
        SnapshotIsTracked(q, n);
      } else {
        FollowsStaysTracked(t, q, n);
      }
    }
  }

  // ----- steps -----

  lemma SameTablesFollow(t: Tables, q: Tables, n: NodeId)
    requires q.credentials == t.credentials && q.assignments == t.assignments && q.accounts == t.accounts
    requires n in t.nodes && n in q.nodes && q.nodes[n].desired == t.nodes[n].desired
    ensures Follows(t, q, n)
  {
    SamePolicy(t, q, n);
  }

  lemma PublishTracks(t: Tables, n: NodeId, configuration: Configuration, seed: DesiredUser, q: Tables)
    requires PublishCompiled(t, n, configuration, seed) == Ok(q)
    ensures StepTracks(t, q)
  {
    hide Compiled, AcceptableUsers, ValidConfiguration, Follows;
    SamePolicy(t, q, n);
    forall m | m in q.nodes && q.nodes[m].desired != 0 && m != n ensures Follows(t, q, m) {
      SameTablesFollow(t, q, m);
    }
  }

  lemma {:induction false} PublishTargetsTrack(t: Tables, targets: seq<RollbackTarget>,
                                               configurations: seq<Configuration>,
                                               seeds: NodeId -> DesiredUser, out: RolledOut)
    requires Inv(t) && Tracks(t) && |targets| == |configurations|
    requires PublishTargets(t, targets, configurations, seeds) == Ok(out)
    ensures Tracks(out.tables)
    decreases |targets|
  {
    hide Inv, Tracks, PublishCompiled, NewestCarries, Grows, StepTracks;
    if targets != [] {
      var n := targets[0].node;
      var m := PublishCompiled(t, n, configurations[0], seeds(n)).value;
      PublishCompiledKeeps(t, n, configurations[0], seeds(n), m);
      PublishCompiledGrows(t, n, configurations[0], seeds(n), m);
      PublishTracks(t, n, configurations[0], seeds(n), m);
      TracksOn(t, m);
      PublishTargetsTrack(m, targets[1..], configurations[1..], seeds,
          PublishTargets(m, targets[1..], configurations[1..], seeds).value);
    }
  }

  lemma RollbackTracks(t: Tables, key: RollbackKey, targets: seq<RollbackTarget>, reason: RollbackReason,
                       seeds: NodeId -> DesiredUser, out: RolledOut)
    requires Inv(t) && Tracks(t) && OperatorRollback(t, key, targets, reason, seeds) == Ok(out)
    ensures Tracks(out.tables)
  {
    hide Inv, Tracked, OperatorRollback, PrepareAll, PublishTargets;
    if key in t.replays {
      RollbackCases(t, key, targets, reason, seeds, out);
    } else {
      RollbackUnfolds(t, key, targets, reason, seeds, out);
      var ordered := Ordered(targets);
      var published := PublishTargets(t, ordered, PrepareAll(t, ordered).value, seeds).value;
      PublishTargetsTrack(t, ordered, PrepareAll(t, ordered).value, seeds, published);
      ReplaysTrack(published.tables, out.tables);
    }
  }

  lemma ReplaysTrack(t: Tables, q: Tables)
    requires Tracks(t) && q == t.(replays := q.replays)
    ensures Tracks(q)
  {
    forall n | n in q.nodes && q.nodes[n].desired != 0 ensures Tracked(q, n) {
      assert Tracked(t, n);
      SamePolicy(t, q, n);
    }
  }

  lemma AccountChangeTracks(t: Tables, c: Tables, q: Tables, ns: set<NodeId>)
    requires AccountChange(t, c, q, ns)
    ensures StepTracks(t, q)
  {
    hide Inv, Closes, Compiled, NewestOfItsNode;
    forall n | n in q.nodes && q.nodes[n].desired != 0 ensures Snapshot(q, n) || Follows(t, q, n) {
      SamePolicy(c, q, n);
      if n in ns {
        assert Republished(c, q, n);
      }
    }
  }

  lemma EnrollTracks(t: Tables, n: NodeId, xray: bool, agentVersion: string, bootstrap: Option<Configuration>,
                     seed: DesiredUser, q: Tables)
    requires Inv(t) && Enroll(t, n, xray, agentVersion, bootstrap, seed) == Ok(q)
    ensures StepTracks(t, q)
  {
    hide Inv, AcceptableUsers, ValidConfiguration, Follows, Compiled;
    NoPolicyYet(t, n);
    SamePolicy(t, q, n);
    forall m | m in q.nodes && q.nodes[m].desired != 0 && m != n ensures Follows(t, q, m) {
      SameTablesFollow(t, q, m);
    }
  }

  lemma NoPolicyYet(t: Tables, n: NodeId)
    requires Inv(t) && n !in t.nodes
    ensures Compiled(t, n) == {}
  {
    hide LogInv, DocumentsFaithful, VersionsDistinct, LiveIsNewest, LiveIsEnabled, StatusesDecided, SnapshotsLocal;
    assert References(t);
  }

  lemma TransitionTracks(t: Tables, n: NodeId, action: LifecycleAction, q: Tables)
    requires Inv(t) && Transition(t, n, action) == Ok(q)
    ensures StepTracks(t, q)
  {
    hide Inv;
    ControlTheorems.LifecycleMeaning(t, n, action, q);
  }

  lemma RecordTracks(t: Tables, n: NodeId, revision: nat, r: RevisionResult, q: Tables)
    requires RecordResult(t, n, revision, r) == Ok(q)
    ensures StepTracks(t, q)
  {
    hide RecordResult, SettleNode, Compiled;
    if q == t {
      forall m | m in q.nodes ensures Follows(t, q, m) {
        SameTablesFollow(t, q, m);
      }
    } else {
      RecordCases(t, n, revision, r, q);
      forall m | m in q.nodes ensures Follows(t, q, m) {
        if q.credentials == t.credentials {
          SameTablesFollow(t, q, m);
        } else {
          SettlingRevokes(t, n, q, t.revisions[q.nodes[n].applied].members, m);
        }
      }
    }
  }

  /** Settling takes a credential out of the policy only by revoking it, and brings none in. */
  lemma SettlingRevokes(t: Tables, n: NodeId, q: Tables, snapshot: set<CredentialId>, m: NodeId)
    requires q.credentials == SettleNode(t.credentials, n, snapshot) && q.assignments == t.assignments
             && q.accounts == t.accounts
    ensures Compiled(q, m) <= Compiled(t, m)
    ensures forall c :: c in Compiled(t, m) && c !in Compiled(q, m) ==>
              c in q.credentials && q.credentials[c].status == Revoked
  {
  }

  lemma CreateAccountTracks(t: Tables, u: UserId, q: Tables)
    requires Inv(t) && CreateAccount(t, u) == Ok(q)
    ensures StepTracks(t, q)
  {
    hide Inv;
    forall m ensures Compiled(q, m) == Compiled(t, m) {
      NewAccountHasNoPolicy(t, u, q, m);
    }
  }

  lemma NewAccountHasNoPolicy(t: Tables, u: UserId, q: Tables, m: NodeId)
    requires Inv(t) && CreateAccount(t, u) == Ok(q)
    ensures Compiled(q, m) == Compiled(t, m)
  {
    hide LogInv, DocumentsFaithful, VersionsDistinct, LiveIsNewest, LiveIsEnabled, StatusesDecided, SnapshotsLocal;
    assert References(t);
  }

  lemma AccountStepTracks(t: Tables, step: Step, q: Tables)
    requires Inv(t) && Commits(t, step) == Ok(q) && (step.DoReplaceNodes? || step.DoSetStatus? || step.DoRotateAccount?)
    ensures StepTracks(t, q)
  {
    hide Inv, StepTracks, ReplaceNodes, RotateAccount, AccountChange, ApplyStatus, PublishAll;
    match step {
      case DoReplaceNodes(u, requested, ids, seeds) =>
        var c := ReplaceNodesChanges(t, u, requested, ids, seeds, q);
        AccountChangeTracks(t, c, q, ToEnable(t, u, requested) + ToDisable(t, u, requested));
      case DoSetStatus(u, status, ids, seeds) =>
        if t.accounts[u] != status {
          var c := SetStatusChanges(t, u, status, ids, seeds, q);
          AccountChangeTracks(t, c, q, NodesWith(t, u, Enabled));
        } else {
          NothingTracks(t);
        }
      case DoRotateAccount(u, trigger, ids, seeds) =>
        var c := RotateAccountChanges(t, u, trigger, ids, seeds, q);
        AccountChangeTracks(t, c, q, NodesWith(t, u, Enabled));
    }
  }

  lemma NothingTracks(t: Tables)
    ensures StepTracks(t, t)
  {
    hide Compiled;
  }

  lemma CanaryTracks(t: Tables, n: NodeId, seed: DesiredUser, q: Tables)
    requires Inv(t) && RotateCanary(t, n, seed) == Ok(q)
    ensures StepTracks(t, q)
  {
    hide Inv, RotateCanary, PublishCompiled, Compiled;
    RotateCanaryUnfolds(t, n, seed, q);
    var next := Canary(seed, t.canaries[n].generation + 1, t.canaries[n].retired + {t.canaries[n].identity.credential});
    var c := t.(canaries := t.canaries[n := next]);
    PublishTracks(c, n, t.revisions[t.nodes[n].desired].configuration, seed, q);
    forall m ensures Compiled(c, m) == Compiled(t, m) {
      SamePolicy(t, c, m);
    }
  }

  lemma NodeStepTracks(t: Tables, step: Step, q: Tables)
    requires Inv(t) && Commits(t, step) == Ok(q)
    requires step.DoPublish? || step.DoReconcile? || step.DoRotateCanary? || step.DoReport?
    ensures StepTracks(t, q)
  {
    hide Inv, PublishCompiled, RotateCanary, Reconcile, Reconciles, StepTracks;
    match step {
      case DoPublish(n, configuration, seed) => PublishTracks(t, n, configuration, seed, q);
      case DoReconcile(n, seed) =>
        var out := Reconcile(t, n, seed).value;
        ReconcileCases(t, n, seed, out);
        if Reconciles(t, n) {
          NothingTracks(t);
        } else {
          PublishTracks(t, n, t.revisions[t.nodes[n].desired].configuration, seed, q);
        }
      case DoRotateCanary(n, seed) => CanaryTracks(t, n, seed, q);
      case DoReport(n, progress, version) => ReportTracks(t, n, progress, version, q);
    }
  }

  lemma ReportTracks(t: Tables, n: NodeId, g: Progress, version: string, q: Tables)
    requires ReportProgress(t, n, g, version) == Ok(q)
    ensures StepTracks(t, q)
  {
    hide Follows;
    forall m | m in q.nodes && q.nodes[m].desired != 0 ensures Follows(t, q, m) {
      SameTablesFollow(t, q, m);
    }
  }

  // ----- runs -----

  lemma StepKeepsTracks(t: Tables, step: Step)
    requires Inv(t) && Tracks(t)
    ensures Tracks(After(t, step))
  {
    hide Inv, Tracks, StepTracks, Grows, CreateAccount, Enroll, Transition, PublishDesired, Reconcile, RotateCanary,
         OperatorRollback,
         RecordResult, ReportProgress, ReplaceNodes, SetStatus, RotateAccount;
    EveryStepKeeps(t, step);
    match Commits(t, step) {
      case Err(_) =>
      case Ok(q) =>
        match step {
          case DoRollback(key, targets, reason, seeds) =>
            RollbackTracks(t, key, targets, reason, seeds, OperatorRollback(t, key, targets, reason, seeds).value);
          case DoCreateAccount(u) => CreateAccountTracks(t, u, q); TracksOn(t, q);
          case DoEnroll(n, xray, version, bootstrap, seed) => EnrollTracks(t, n, xray, version, bootstrap, seed,
              q); TracksOn(t, q);
          case DoTransition(n, action) => TransitionTracks(t, n, action, q); TracksOn(t, q);
          case DoRecord(n, revision, result) => RecordTracks(t, n, revision, result, q); TracksOn(t, q);
          case DoReplaceNodes(_, _, _, _) => AccountStepTracks(t, step, q); TracksOn(t, q);
          case DoSetStatus(_, _, _, _) => AccountStepTracks(t, step, q); TracksOn(t, q);
          case DoRotateAccount(_, _, _, _) => AccountStepTracks(t, step, q); TracksOn(t, q);
          case _ => NodeStepTracks(t, step, q); TracksOn(t, q);
        }
    }
  }

  lemma {:induction false} RunKeepsTracks(t: Tables, steps: seq<Step>)
    requires Inv(t) && Tracks(t)
    ensures Tracks(Run(t, steps))
    decreases |steps|
  {
    hide Inv, Tracks, Grows, After;
    if steps != [] {
      EveryStepKeeps(t, steps[0]);
      StepKeepsTracks(t, steps[0]);
      RunKeepsTracks(After(t, steps[0]), steps[1..]);
    }
  }

  /** In every reachable state the newest revision of a node lists every credential of the live policy, and
      every other member it lists has been revoked; so the two are equal exactly when no member was revoked. */
  lemma NewestRevisionIsThePolicy(steps: seq<Step>, n: NodeId)
    requires n in Run(EmptyTables, steps).nodes && Run(EmptyTables, steps).nodes[n].desired != 0
    ensures var t := Run(EmptyTables, steps);
            && t.nodes[n].desired in t.revisions
            && var members := t.revisions[t.nodes[n].desired].members;
               && members <= t.credentials.Keys && Compiled(t, n) == Unrevoked(t, members)
               && (members == Compiled(t, n) <==> forall c :: c in members ==> t.credentials[c].status != Revoked)
  {
    hide Inv, Run;
    EmptyIsInvariant();
    RunKeepsTracks(EmptyTables, steps);
    LivePolicy(Run(EmptyTables, steps), n);
  }
}
