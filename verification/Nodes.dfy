/** Node-side steps: enrollment, lifecycle, result reports, progress reports, and the publication
    steps an operator triggers for one node. */
module Nodes {
  import opened Domain
  import opened DesiredState
  import opened Plane
  import opened RevisionLog
  import opened Credentials
  import opened Publication
  import opened Accounts

  // ----- settling credentials after an applied or rolled-back report -----

  lemma SettleKeepsVersions(cs: CredentialTable, n: NodeId, snapshot: set<CredentialId>, a: AssignmentTable)
    requires VersionsDistinct(cs) && LiveIsNewest(cs) && LiveIsEnabled(cs, a)
    ensures var ds := SettleNode(cs, n, snapshot);
            && VersionsDistinct(ds) && LiveIsNewest(ds) && LiveIsEnabled(ds, a) && Advances(cs, ds)
               && ds.Keys == cs.Keys
  {
    var ds := SettleNode(cs, n, snapshot);
    forall c | c in cs ensures SameIdentity(cs[c], ds[c]) && (Live(ds[c].status) ==> Live(cs[c].status))
                               && StatusRank(cs[c].status) <= StatusRank(ds[c].status) {
    }
  }

  /** After a report the statuses on the node follow its applied snapshot; elsewhere nothing moved. */
  lemma SettleDecides(t: Tables, n: NodeId, q: Tables)
    requires SnapshotsLocal(t) && StatusesDecided(t) && n in q.nodes && q.nodes[n].applied in t.revisions
    requires q.revisions == t.revisions && q.nodes == t.nodes[n := q.nodes[n]]
    requires q.credentials == SettleNode(t.credentials, n, t.revisions[q.nodes[n].applied].members)
    ensures SnapshotsLocal(q) && StatusesDecided(q)
  {
  }

  lemma UnsettledDecides(t: Tables, n: NodeId, q: Tables)
    requires SnapshotsLocal(t) && StatusesDecided(t) && n in t.nodes
    requires q.revisions == t.revisions && q.credentials == t.credentials
    requires n in q.nodes && q.nodes == t.nodes[n := q.nodes[n]] && q.nodes[n].applied == t.nodes[n].applied
    ensures SnapshotsLocal(q) && StatusesDecided(q)
  {
  }

  /** The account tables do not depend on progress cursors. */
  lemma SoundIgnoresCursors(t: Tables, q: Tables)
    requires AccountsSound(t) && q.accounts == t.accounts && q.assignments == t.assignments
    requires VersionsDistinct(q.credentials) && LiveIsNewest(q.credentials)
             && LiveIsEnabled(q.credentials, q.assignments)
    requires Advances(t.credentials, q.credentials) && q.credentials.Keys == t.credentials.Keys
    requires forall n :: n in t.nodes ==>
               n in q.nodes && q.nodes[n].status == t.nodes[n].status && q.nodes[n].desired == t.nodes[n].desired
    ensures AccountsSound(q)
  {
    forall c | c in q.credentials ensures Pair(q.credentials[c].user, q.credentials[c].node) in q.assignments {
      assert SameIdentity(t.credentials[c], q.credentials[c]);
    }
  }

  /** The tables a committed, non-replayed report produces. */
  lemma RecordCases(t: Tables, n: NodeId, revision: nat, r: RevisionResult, q: Tables)
    requires RecordResult(t, n, revision, r) == Ok(q) && q != t
    ensures n in t.nodes && q == t.(nodes := q.nodes, journal := q.journal, credentials := q.credentials)
    ensures q.nodes == t.nodes[n := AdvanceCursors(t.nodes[n], revision, r)]
    ensures if r.state == Applied || r.state == RolledBack
            then q.nodes[n].applied in t.revisions
                 && q.credentials == SettleNode(t.credentials, n, t.revisions[q.nodes[n].applied].members)
            else q.credentials == t.credentials && q.nodes[n].applied == t.nodes[n].applied
  {
  }

  lemma RecordKeepsCredentials(t: Tables, n: NodeId, revision: nat, r: RevisionResult, q: Tables)
    requires CredentialInv(t) && RecordResult(t, n, revision, r) == Ok(q) && q != t
    ensures SnapshotsLocal(q) && StatusesDecided(q) && Advances(t.credentials, q.credentials)
    ensures q.credentials.Keys == t.credentials.Keys
    ensures VersionsDistinct(q.credentials) && LiveIsNewest(q.credentials)
            && LiveIsEnabled(q.credentials, q.assignments)
  {
    hide RecordResult, SettleNode, DecidedByApplied;
    RecordCases(t, n, revision, r, q);
    if r.state == Applied || r.state == RolledBack {
      SettleKeepsVersions(t.credentials, n, t.revisions[q.nodes[n].applied].members, t.assignments);
      SettleDecides(t, n, q);
    } else {
      UnsettledDecides(t, n, q);
    }
  }

  lemma RecordKeepsInv(t: Tables, n: NodeId, revision: nat, r: RevisionResult, q: Tables)
    requires Inv(t) && RecordResult(t, n, revision, r) == Ok(q)
    ensures Inv(q) && Advances(t.credentials, q.credentials)
  {
    hide RecordResult, LogInv, StatusesDecided, SnapshotsLocal, VersionsDistinct, LiveIsNewest, LiveIsEnabled, Advances,
         References, EnabledIsServed, DeletedIsClosed, DocumentsFaithful;
    if q != t {
      RecordKeepsLog(t, n, revision, r, q);
      RecordKeepsCredentials(t, n, revision, r, q);
      RecordCases(t, n, revision, r, q);
      InvIsSound(t);
      SoundIgnoresCursors(t, q);
      DocumentsStable(t, q);
    } else {
      AdvancesReflexive(t.credentials);
    }
  }

  lemma AdvancesReflexive(cs: CredentialTable)
    ensures Advances(cs, cs)
  {
  }

  // ----- progress reports and enrollment -----

  lemma ReportKeepsInv(t: Tables, n: NodeId, g: Progress, version: string, q: Tables)
    requires Inv(t) && ReportProgress(t, n, g, version) == Ok(q)
    ensures Inv(q) && q.credentials == t.credentials
  {
    hide LogInv, StatusesDecided, SnapshotsLocal, DocumentFaithful;
    ReportKeepsLog(t, n, g, version, q);
    UnsettledDecides(t, n, q);
    AdvancesReflexive(t.credentials);
    DocumentsStable(t, q);
  }

  lemma NewNodeKeepsLog(t: Tables, n: NodeId, node: Node)
    requires LogInv(t) && n !in t.nodes && NoProgress(node)
    ensures LogInv(t.(nodes := t.nodes[n := node]))
  {
    var q := t.(nodes := t.nodes[n := node]);
    forall m | m in t.nodes ensures m in q.nodes && SameProgress(t.nodes[m], q.nodes[m]) {
      assert CursorsAgree(t, m);
    }
    UntouchedKeepsLog(t, q);
  }

  lemma NewNodeKeepsSound(t: Tables, n: NodeId, node: Node)
    requires AccountsSound(t) && n !in t.nodes
    ensures AccountsSound(t.(nodes := t.nodes[n := node]))
  {
  }

  /** A node that no table mentions yet. */
  lemma NewNodeKeepsInv(t: Tables, n: NodeId, node: Node)
    requires Inv(t) && n !in t.nodes && NoProgress(node)
    ensures Inv(t.(nodes := t.nodes[n := node]))
  {
    var q := t.(nodes := t.nodes[n := node]);
    InvIsSound(t);
    NewNodeKeepsSound(t, n, node);
    NewNodeKeepsLog(t, n, node);
    NothingApplied(t);
    hide LogInv, AccountsSound, StatusesDecided, SnapshotsLocal, VersionsDistinct, LiveIsNewest, LiveIsEnabled,
         DocumentFaithful;
    AdvancesReflexive(t.credentials);
    ClosesKeepsStatuses(t, q);
    DocumentsStable(t, q);
    SoundParts(q);
  }

  lemma NothingApplied(t: Tables)
    requires LogInv(t)
    ensures 0 !in t.revisions
  {
  }

  lemma EnrollKeepsInv(t: Tables, n: NodeId, xray: bool, agentVersion: string, bootstrap: Option<Configuration>,
                       seed: DesiredUser, q: Tables)
    requires Inv(t) && Enroll(t, n, xray, agentVersion, bootstrap, seed) == Ok(q)
    ensures Inv(q) && q.credentials == t.credentials
  {
    hide Inv, Publish, PublishedOne;
    match bootstrap {
      case None => NewNodeKeepsInv(t, n, Node(NodePending, 0, 0, 0, 0, 0, xray, agentVersion));
      case Some(configuration) =>
        var node := Node(NodeActive, 0, 0, 0, 0, 0, xray, agentVersion);
        var m := t.(nodes := t.nodes[n := node]);
        NewNodeKeepsInv(t, n, node);
        PublishEffect(m, n, configuration, {}, seed, q);
        PublishKeepsInv(m, n, configuration, {}, q);
        PublishedOneTables(m, n, configuration, {}, q);
    }
  }

  lemma PublishedOneTables(t: Tables, n: NodeId, configuration: Configuration, members: set<CredentialId>, q: Tables)
    requires PublishedOne(t, n, configuration, members, q)
    ensures q.credentials == t.credentials && q.assignments == t.assignments && q.accounts == t.accounts
    ensures q.last == t.last + 1 && q.last in q.revisions
    ensures q.revisions[q.last].members == members && q.revisions[q.last].node == n
    ensures q.revisions[q.last].configuration == CanonicalConfiguration(configuration)
    ensures n in q.nodes && q.nodes[n].desired == q.last
    ensures q.replays == t.replays
  {
  }

  // ----- lifecycle -----

  lemma CloseNodeCloses(cs: CredentialTable, n: NodeId)
    ensures Closes(cs, RevokeNode(cs, n)) && RevokeNode(cs, n).Keys == cs.Keys
    ensures forall c :: c in cs && cs[c].node == n ==> RevokeNode(cs, n)[c].status == Revoked
  {
  }

  lemma TransitionKeepsSound(t: Tables, n: NodeId, action: LifecycleAction, q: Tables)
    requires AccountsSound(t) && Transition(t, n, action) == Ok(q) && action != Approve
    ensures AccountsSound(q) && Closes(t.credentials, q.credentials)
  {
    CloseNodeCloses(t.credentials, n);
    ClosingKeepsVersions(t.credentials, q.credentials);
    hide VersionsDistinct, LiveIsNewest, Closes;
    TransitionKeepsPairs(t, n, action, q);
    TransitionKeepsServed(t, n, action, q);
    hide Transition, References, EnabledIsServed, DeletedIsClosed, LiveIsEnabled;
  }

  lemma TransitionKeepsPairs(t: Tables, n: NodeId, action: LifecycleAction, q: Tables)
    requires References(t) && LiveIsEnabled(t.credentials, t.assignments) && Transition(t, n, action) == Ok(q)
             && action != Approve
    ensures References(q) && LiveIsEnabled(q.credentials, q.assignments)
  {
  }

  lemma TransitionKeepsServed(t: Tables, n: NodeId, action: LifecycleAction, q: Tables)
    requires EnabledIsServed(t) && DeletedIsClosed(t) && Transition(t, n, action) == Ok(q) && action != Approve
    ensures EnabledIsServed(q) && DeletedIsClosed(q)
  {
  }

  lemma ApproveKeepsSound(t: Tables, n: NodeId, q: Tables)
    requires AccountsSound(t) && Transition(t, n, Approve) == Ok(q)
    ensures AccountsSound(q) && q.credentials == t.credentials
  {
  }

  lemma TransitionKeepsInv(t: Tables, n: NodeId, action: LifecycleAction, q: Tables)
    requires Inv(t) && Transition(t, n, action) == Ok(q)
    ensures Inv(q) && Closes(t.credentials, q.credentials)
  {
    hide LogInv, StatusesDecided, SnapshotsLocal, VersionsDistinct, LiveIsNewest, LiveIsEnabled, DocumentFaithful,
         References, EnabledIsServed, DeletedIsClosed, Closes, Advances;
    TransitionKeepsLog(t, n, action, q);
    InvIsSound(t);
    if action == Approve {
      ApproveKeepsSound(t, n, q);
      ClosesNothing(t.credentials);
    } else {
      TransitionKeepsSound(t, n, action, q);
    }
    hide AccountsSound, RevokeNode, CloseAssignments;
    ClosesKeepsStatuses(t, q);
    ClosesAdvances(t.credentials, q.credentials);
    DocumentsStable(t, q);
    SoundParts(q);
  }

  lemma SoundParts(q: Tables)
    requires AccountsSound(q)
    ensures VersionsDistinct(q.credentials) && LiveIsNewest(q.credentials)
            && LiveIsEnabled(q.credentials, q.assignments)
    ensures References(q) && EnabledIsServed(q) && DeletedIsClosed(q)
  {
  }

  lemma TransitionKeepsLog(t: Tables, n: NodeId, action: LifecycleAction, q: Tables)
    requires LogInv(t) && Transition(t, n, action) == Ok(q)
    ensures LogInv(q)
  {
    hide RevokeNode, CloseAssignments;
    forall m | m in t.nodes ensures m in q.nodes && SameProgress(t.nodes[m], q.nodes[m]) {
      assert CursorsAgree(t, m);
    }
    UntouchedKeepsLog(t, q);
  }
}
