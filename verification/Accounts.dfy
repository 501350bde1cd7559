/** Account operations: assignment replacement, status changes and credential rotation.  Each keeps
    every invariant, republishes exactly the nodes whose user set it changes, and can fail after its
    own guards only for capacity. */
module Accounts {
  import opened Domain
  import opened DesiredState
  import opened Plane
  import opened RevisionLog
  import opened Credentials
  import opened Publication

  // ----- from a table change to a committed operation -----

  /** Each changed policy was published: a node whose user set differs has a new revision, and every
      new revision is its node's newest and snapshots exactly the node's user set at commit. */
  ghost predicate PolicyPublished(t: Tables, q: Tables) {
    && t.last <= q.last
    && (forall n :: n in t.nodes && Compiled(q, n) != Compiled(t, n) ==> n in q.nodes && t.last < q.nodes[n].desired)
    && (forall r :: t.last < r <= q.last ==> SnapshotsPolicy(q, r) && KeepsConfiguration(t, q, r))
  }

  /** The new revision carries its node's previous configuration and canary. */
  ghost predicate KeepsConfiguration(t: Tables, q: Tables, r: nat) {
    && r in q.revisions
    && var n := q.revisions[r].node;
       && n in t.nodes && n in t.canaries && t.nodes[n].desired in t.revisions
       && q.revisions[r].configuration == t.revisions[t.nodes[n].desired].configuration
       && q.revisions[r].canary == t.canaries[n].identity
  }

  ghost predicate SnapshotsPolicy(q: Tables, r: nat) {
    && r in q.revisions && q.revisions[r].node in q.nodes && q.nodes[q.revisions[r].node].desired == r
    && q.revisions[r].members == Compiled(q, q.revisions[r].node)
  }

  /** Only accounts, assignments and credentials differ. */
  ghost predicate SameLog(t: Tables, c: Tables) {
    c == t.(accounts := c.accounts, assignments := c.assignments, credentials := c.credentials)
  }

  lemma ChangeIsPublished(t: Tables, c: Tables, q: Tables, ns: set<NodeId>)
    requires SameLog(t, c) && Published(c, q, ns)
    requires forall n :: n in t.nodes && n !in ns ==> Compiled(c, n) == Compiled(t, n)
    ensures PolicyPublished(t, q)
  {
    forall n | n in t.nodes && Compiled(q, n) != Compiled(t, n) ensures n in q.nodes && t.last < q.nodes[n].desired {
      SamePolicy(c, q, n);
      assert Republished(c, q, n);
    }
    forall r | t.last < r <= q.last ensures SnapshotsPolicy(q, r) && KeepsConfiguration(t, q, r) {
      assert NewestOfItsNode(q, ns, r);
      var n := q.revisions[r].node;
      assert Republished(c, q, n);
      SamePolicy(c, q, n);
    }
  }

  /** A committed account operation: `c` is the changed tables before publication of the nodes `ns`. */
  ghost predicate AccountChange(t: Tables, c: Tables, q: Tables, ns: set<NodeId>) {
    && SameLog(t, c) && Closes(t.credentials, c.credentials) && Inv(c)
    && Published(c, q, ns) && Inv(q)
    && (forall u :: u in t.accounts ==>
           u in c.accounts && (t.accounts[u] == AccountDeleted ==> c.accounts[u] == AccountDeleted))
    && (forall n :: n in t.nodes && n !in ns ==> Compiled(c, n) == Compiled(t, n))
  }

  lemma AccountChangePublishes(t: Tables, c: Tables, q: Tables, ns: set<NodeId>)
    requires AccountChange(t, c, q, ns)
    ensures Inv(q) && PolicyPublished(t, q)
  {
    hide Inv, Published, Compiled, Closes, PolicyPublished;
    ChangeIsPublished(t, c, q, ns);
  }

  /** The credential part of the invariant after an account change. */
  ghost predicate AccountsSound(c: Tables) {
    && VersionsDistinct(c.credentials) && LiveIsNewest(c.credentials) && LiveIsEnabled(c.credentials, c.assignments)
    && References(c) && EnabledIsServed(c) && DeletedIsClosed(c)
  }

  lemma InvIsSound(t: Tables)
    requires Inv(t)
    ensures AccountsSound(t)
  {
  }

  lemma ChangeKeepsLog(t: Tables, c: Tables)
    requires LogInv(t) && SameLog(t, c)
    ensures LogInv(c)
  {
    SameNodesUntouched(t, c);
    UntouchedKeepsLog(t, c);
  }

  lemma ChangeKeepsInv(t: Tables, c: Tables)
    requires Inv(t) && SameLog(t, c) && Closes(t.credentials, c.credentials) && AccountsSound(c)
    ensures Inv(c)
  {
    ChangeKeepsLog(t, c);
    ClosesKeepsStatuses(t, c);
    ClosesAdvances(t.credentials, c.credentials);
    DocumentsStable(t, c);
  }

  // ----- which policies a change can touch -----

  ghost predicate CredentialsLocal(cs: CredentialTable, ds: CredentialTable, u: UserId, ns: set<NodeId>) {
    && (forall x :: x in cs && !Of(cs[x], u, ns) ==> x in ds && ds[x] == cs[x])
    && (forall x :: x in ds && !Of(ds[x], u, ns) ==> x in cs && ds[x] == cs[x])
  }

  ghost predicate AssignmentsLocal(a: AssignmentTable, b: AssignmentTable, u: UserId, ns: set<NodeId>) {
    && (forall p :: p in a && !(p.user == u && p.node in ns) ==> p in b && b[p] == a[p])
    && (forall p :: p in b && !(p.user == u && p.node in ns) ==> p in a)
  }

  /** Rows outside the given nodes of the given user are the same in both tables. */
  ghost predicate LocalTo(t: Tables, c: Tables, u: UserId, ns: set<NodeId>) {
    && CredentialsLocal(t.credentials, c.credentials, u, ns)
    && AssignmentsLocal(t.assignments, c.assignments, u, ns)
    && (forall v :: v != u ==> (v in c.accounts <==> v in t.accounts) && (v in t.accounts ==>
           c.accounts[v] == t.accounts[v]))
  }

  /** A local change leaves every other node's policy alone, unless it changes the account's status
      while the user has live credentials elsewhere. */
  lemma PolicyElsewhere(t: Tables, c: Tables, u: UserId, ns: set<NodeId>, n: NodeId)
    requires LocalTo(t, c, u, ns) && n !in ns
    requires (u in t.accounts && u in c.accounts && t.accounts[u] == c.accounts[u])
             || (forall x :: x in t.credentials && t.credentials[x].user == u && t.credentials[x].node == n
                             ==> !Live(t.credentials[x].status))
    ensures Compiled(c, n) == Compiled(t, n)
  {
  }

  // ----- rotation -----

  lemma RetireNothing(cs: CredentialTable, u: UserId)
    ensures RetirePairs(cs, u, {}) == cs
  {
  }

  /** Rotation is a change that reissues on every enabled assignment. */
  lemma RotateIsChange(t: Tables, u: UserId, ids: NodeId -> CredentialId, c: Tables)
    requires RotateCredentials(t, u, ids) == Ok(c)
    ensures FreshFor(t.credentials, NodesWith(t, u, Enabled), ids)
    ensures c == t.(credentials := Change(t.credentials, u, NodesWith(t, u, Enabled), {}, ids))
  {
    RetireNothing(IssuePairs(RevokePairs(t.credentials, u, NodesWith(t, u, Enabled)), u, NodesWith(t, u, Enabled), ids),
        u);
  }

  /** `t` with account `u` marked, then rotated: used by rotation (same mark) and reactivation. */
  lemma RotateKeepsSound(t: Tables, u: UserId, ids: NodeId -> CredentialId, c: Tables)
    requires AccountsSound(t) && RotateCredentials(t, u, ids) == Ok(c)
    ensures AccountsSound(c) && Closes(t.credentials, c.credentials)
  {
    var ns := NodesWith(t, u, Enabled);
    RotateIsChange(t, u, ids, c);
    ChangeKeepsVersions(t.credentials, u, ns, {}, ids);
    ChangeCloses(t.credentials, u, ns, {}, ids);
    ChangeKeepsEnabled(t.credentials, t.assignments, t.assignments, u, ns, {}, ids);
    RotateKeepsReferences(t, u, ids, c);
  }

  lemma RotateKeepsReferences(t: Tables, u: UserId, ids: NodeId -> CredentialId, c: Tables)
    requires References(t) && EnabledIsServed(t) && DeletedIsClosed(t) && RotateCredentials(t, u, ids) == Ok(c)
    ensures References(c) && EnabledIsServed(c) && DeletedIsClosed(c)
  {
    var ns := NodesWith(t, u, Enabled);
    RotateIsChange(t, u, ids, c);
    ChangedRows(t.credentials, u, ns, {}, ids);
    forall x | x in c.credentials ensures Pair(c.credentials[x].user, c.credentials[x].node) in c.assignments {
      if x !in t.credentials {
        var n :| n in ns && x == ids(n);
        assert Pair(u, n) in t.assignments;
      }
    }
  }

  lemma ChangeIsLocal(cs: CredentialTable, u: UserId, enable: set<NodeId>, disable: set<NodeId>,
                      ids: NodeId -> CredentialId)
    requires FreshFor(cs, enable, ids) && enable !! disable
    ensures CredentialsLocal(cs, Change(cs, u, enable, disable, ids), u, enable + disable)
  {
    ChangedRows(cs, u, enable, disable, ids);
    hide Change;
  }

  lemma RotateIsLocal(t: Tables, u: UserId, ids: NodeId -> CredentialId, c: Tables)
    requires RotateCredentials(t, u, ids) == Ok(c)
    ensures LocalTo(t, c, u, NodesWith(t, u, Enabled))
  {
    hide Change, RotateCredentials, CredentialsLocal, NodesWith, FreshFor;
    RotateIsChange(t, u, ids, c);
    ChangeIsLocal(t.credentials, u, NodesWith(t, u, Enabled), {}, ids);
    assert NodesWith(t, u, Enabled) + {} == NodesWith(t, u, Enabled);
  }

  /** Password change, session reset, reset-token consumption and device revocation. */
  lemma RotateAccountChanges(t: Tables, u: UserId, trigger: RotationTrigger, ids: NodeId -> CredentialId,
                             seeds: NodeId -> DesiredUser, q: Tables) returns (c: Tables)
    requires Inv(t) && RotateAccount(t, u, trigger, ids, seeds) == Ok(q)
    ensures RotateCredentials(t, u, ids) == Ok(c)
    ensures AccountChange(t, c, q, NodesWith(t, u, Enabled))
  {
    hide Inv, RotateCredentials, PublishAll, Closes, Compiled, Published;
    c := RotateCredentials(t, u, ids).value;
    RotateCommits(t, u, ids, c);
    RotateIsChange(t, u, ids, c);
    PublishAllEffect(c, NodesWith(t, u, Enabled), seeds, q);
  }

  lemma PublishedCredentials(c: Tables, q: Tables, ns: set<NodeId>)
    requires Published(c, q, ns)
    ensures q.credentials == c.credentials && q.assignments == c.assignments && q.accounts == c.accounts
  {
  }

  /** The credential rotation by itself: invariants, forward-only, other policies unchanged. */
  lemma RotateCommits(t: Tables, u: UserId, ids: NodeId -> CredentialId, c: Tables)
    requires Inv(t) && u in t.accounts && RotateCredentials(t, u, ids) == Ok(c)
    ensures Inv(c) && SameLog(t, c) && Closes(t.credentials, c.credentials)
    ensures forall n :: n in t.nodes && n !in NodesWith(t, u, Enabled) ==> Compiled(c, n) == Compiled(t, n)
  {
    hide Inv, RotateCredentials, Closes, AccountsSound, LocalTo, Compiled;
    InvIsSound(t);
    RotateKeepsSound(t, u, ids, c);
    RotateIsChange(t, u, ids, c);
    ChangeKeepsInv(t, c);
    RotateIsLocal(t, u, ids, c);
    forall n | n in t.nodes && n !in NodesWith(t, u, Enabled) ensures Compiled(c, n) == Compiled(t, n) {
      PolicyElsewhere(t, c, u, NodesWith(t, u, Enabled), n);
    }
  }

  // ----- status changes -----

  /** Live credentials sit on enabled assignments, so outside those nodes a user has none. */
  lemma NoLiveElsewhere(t: Tables, u: UserId, n: NodeId)
    requires LiveIsEnabled(t.credentials, t.assignments) && n !in NodesWith(t, u, Enabled)
    ensures forall x :: x in t.credentials && t.credentials[x].user == u && t.credentials[x].node == n
                        ==> !Live(t.credentials[x].status)
  {
  }

  /** A change that only closes credentials keeps their assignments and versions. */
  lemma ClosingKeepsReferences(t: Tables, c: Tables)
    requires AccountsSound(t) && Closes(t.credentials, c.credentials) && c.credentials.Keys == t.credentials.Keys
    requires c.nodes == t.nodes && c.accounts.Keys == t.accounts.Keys && c.assignments.Keys == t.assignments.Keys
    ensures VersionsDistinct(c.credentials) && LiveIsNewest(c.credentials) && References(c)
  {
    ClosingKeepsVersions(t.credentials, c.credentials);
    forall x | x in c.credentials ensures Pair(c.credentials[x].user, c.credentials[x].node) in c.assignments {
      assert ClosedRow(t.credentials[x], c.credentials[x]);
    }
  }

  lemma DisableKeepsSound(t: Tables, u: UserId, c: Tables)
    requires AccountsSound(t) && u in t.accounts
    requires c == t.(accounts := t.accounts[u := AccountDisabled],
                     credentials := RetirePairs(t.credentials, u, NodesWith(t, u, Enabled)))
    requires t.accounts[u] != AccountDeleted
    ensures AccountsSound(c) && Closes(t.credentials, c.credentials)
  {
    RetireCloses(t.credentials, u, NodesWith(t, u, Enabled));
    ClosingKeepsReferences(t, c);
    forall x | x in c.credentials && Live(c.credentials[x].status)
      ensures Pair(c.credentials[x].user, c.credentials[x].node) in c.assignments
              && c.assignments[Pair(c.credentials[x].user, c.credentials[x].node)] == Enabled
    {
      assert ClosedRow(t.credentials[x], c.credentials[x]);
    }
  }

  lemma DisableIsLocal(t: Tables, u: UserId, c: Tables)
    requires u in t.accounts
    requires c == t.(accounts := t.accounts[u := AccountDisabled],
                     credentials := RetirePairs(t.credentials, u, NodesWith(t, u, Enabled)))
    ensures LocalTo(t, c, u, NodesWith(t, u, Enabled))
  {
  }

  lemma DeleteKeepsSound(t: Tables, u: UserId, c: Tables)
    requires AccountsSound(t) && u in t.accounts
    requires c == t.(accounts := t.accounts[u := AccountDeleted],
                     assignments := DeleteAssignments(t.assignments, u),
                     credentials := RevokeUser(t.credentials, u))
    ensures AccountsSound(c) && Closes(t.credentials, c.credentials)
  {
    RevokeUserCloses(t.credentials, u);
    ClosingKeepsReferences(t, c);
    forall x | x in c.credentials && Live(c.credentials[x].status)
      ensures Pair(c.credentials[x].user, c.credentials[x].node) in c.assignments
              && c.assignments[Pair(c.credentials[x].user, c.credentials[x].node)] == Enabled
    {
      assert Pair(t.credentials[x].user, t.credentials[x].node) in t.assignments;
      assert c.credentials[x] == t.credentials[x];
    }
  }

  /** After deletion no credential of the user is live and no policy mentions the user. */
  lemma DeletedUserHasNoPolicy(t: Tables, u: UserId, c: Tables, n: NodeId)
    requires AccountsSound(t) && n !in NodesWith(t, u, Enabled)
    requires c == t.(accounts := t.accounts[u := AccountDeleted],
                     assignments := DeleteAssignments(t.assignments, u),
                     credentials := RevokeUser(t.credentials, u))
    ensures Compiled(c, n) == Compiled(t, n)
  {
    NoLiveElsewhere(t, u, n);
    forall x ensures x in Compiled(c, n) <==> x in Compiled(t, n) {
      if x in t.credentials && t.credentials[x].user != u {
        assert c.credentials[x] == t.credentials[x];
      }
    }
  }

  /** Reactivation marks the account and rotates; marking alone keeps the account tables sound. */
  lemma MarkActiveKeepsSound(t: Tables, u: UserId)
    requires AccountsSound(t) && u in t.accounts
    ensures AccountsSound(t.(accounts := t.accounts[u := AccountActive]))
  {
  }

  /** The effect of a status change before publication. */
  lemma ApplyStatusKeeps(t: Tables, u: UserId, requested: AccountStatus, ids: NodeId -> CredentialId, c: Tables)
    requires Inv(t) && u in t.accounts && ApplyStatus(t, u, requested, ids) == Ok(c)
    requires t.accounts[u] == AccountDeleted ==> requested == AccountDeleted
    ensures Inv(c) && SameLog(t, c) && Closes(t.credentials, c.credentials)
    ensures forall n :: n in t.nodes && n !in NodesWith(t, u, Enabled) ==> Compiled(c, n) == Compiled(t, n)
  {
    hide Inv, RotateCredentials, Closes, AccountsSound, LocalTo, Compiled, RetirePairs, RevokePairs, DeleteAssignments;
    InvIsSound(t);
    match requested {
      case AccountActive => ReactivateKeeps(t, u, ids, c);
      case AccountDisabled =>
        DisableKeepsSound(t, u, c);
        DisableIsLocal(t, u, c);
        ChangeKeepsInv(t, c);
        forall n | n in t.nodes && n !in NodesWith(t, u, Enabled) ensures Compiled(c, n) == Compiled(t, n) {
          SoundMeansEnabled(t);
          NoLiveElsewhere(t, u, n);
          PolicyElsewhere(t, c, u, NodesWith(t, u, Enabled), n);
        }
      case AccountDeleted =>
        DeleteKeepsSound(t, u, c);
        ChangeKeepsInv(t, c);
        forall n | n in t.nodes && n !in NodesWith(t, u, Enabled) ensures Compiled(c, n) == Compiled(t, n) {
          DeletedUserHasNoPolicy(t, u, c, n);
        }
    }
  }

  lemma SoundMeansEnabled(t: Tables)
    requires AccountsSound(t)
    ensures LiveIsEnabled(t.credentials, t.assignments)
  {
  }

  lemma ReactivateKeeps(t: Tables, u: UserId, ids: NodeId -> CredentialId, c: Tables)
    requires Inv(t) && AccountsSound(t) && u in t.accounts
    requires RotateCredentials(t.(accounts := t.accounts[u := AccountActive]), u, ids) == Ok(c)
    ensures Inv(c) && SameLog(t, c) && Closes(t.credentials, c.credentials)
    ensures forall n :: n in t.nodes && n !in NodesWith(t, u, Enabled) ==> Compiled(c, n) == Compiled(t, n)
  {
    hide Inv, RotateCredentials, Closes, AccountsSound, LocalTo, Compiled;
    var marked := t.(accounts := t.accounts[u := AccountActive]);
    MarkActiveKeepsSound(t, u);
    RotateKeepsSound(marked, u, ids, c);
    RotateIsChange(marked, u, ids, c);
    ChangeKeepsInv(t, c);
    RotateIsLocal(marked, u, ids, c);
    LocalThroughMark(t, c, u, NodesWith(t, u, Enabled));
    SoundMeansEnabled(t);
    forall n | n in t.nodes && n !in NodesWith(t, u, Enabled) ensures Compiled(c, n) == Compiled(t, n) {
      NoLiveElsewhere(t, u, n);
      PolicyElsewhere(t, c, u, NodesWith(t, u, Enabled), n);
    }
  }

  lemma LocalThroughMark(t: Tables, c: Tables, u: UserId, ns: set<NodeId>)
    requires u in t.accounts && LocalTo(t.(accounts := t.accounts[u := AccountActive]), c, u, ns)
    ensures LocalTo(t, c, u, ns)
  {
  }

  /** Every enabled assignment is on an active node, so the publishable nodes are all enabled ones. */
  lemma PublishableIsEnabled(t: Tables, u: UserId)
    requires Inv(t)
    ensures PublishableNodes(t, u) == NodesWith(t, u, Enabled)
    ensures forall n :: n in NodesWith(t, u, Enabled) ==> Ready(t, n)
  {
  }

  lemma SetStatusChanges(t: Tables, u: UserId, requested: AccountStatus, ids: NodeId -> CredentialId,
                         seeds: NodeId -> DesiredUser, q: Tables) returns (c: Tables)
    requires Inv(t) && SetStatus(t, u, requested, ids, seeds) == Ok(q) && t.accounts[u] != requested
    ensures ApplyStatus(t, u, requested, ids) == Ok(c)
    ensures AccountChange(t, c, q, NodesWith(t, u, Enabled))
  {
    hide Inv, ApplyStatus, PublishAll, Closes, Compiled, Published;
    c := ApplyStatus(t, u, requested, ids).value;
    PublishableIsEnabled(t, u);
    ApplyStatusKeeps(t, u, requested, ids, c);
    AppliedAccounts(t, u, requested, ids, c);
    PublishAllEffect(c, NodesWith(t, u, Enabled), seeds, q);
  }

  lemma AppliedAccounts(t: Tables, u: UserId, requested: AccountStatus, ids: NodeId -> CredentialId, c: Tables)
    requires ApplyStatus(t, u, requested, ids) == Ok(c)
    ensures c.accounts == t.accounts[u := requested]
  {
  }

  // ----- assignment replacement -----

  lemma ReassignedRows(a: AssignmentTable, u: UserId, enable: set<NodeId>, disable: set<NodeId>)
    requires enable !! disable
    ensures var b := Reassign(a, u, enable, disable);
            && (forall n :: n in enable ==> Pair(u, n) in b && b[Pair(u, n)] == Enabled)
            && (forall n :: n in disable ==> Pair(u, n) in b && b[Pair(u, n)] == Disabled)
            && (forall p :: p in a && !(p.user == u && p.node in enable + disable) ==> p in b && b[p] == a[p])
            && (forall p :: p in b && !(p.user == u && p.node in enable + disable) ==> p in a && b[p] == a[p])
            && (forall p :: p in a ==> p in b)
  {
  }

  /** Everything replacement needs to know about its node sets. */
  ghost predicate ReplacementSets(t: Tables, u: UserId, enable: set<NodeId>, disable: set<NodeId>) {
    && u in t.accounts && t.accounts[u] == AccountActive
    && enable !! disable
    && (forall n :: n in enable ==> n in t.nodes)
    && disable <= NodesWith(t, u, Enabled)
  }

  lemma ReplaceKeepsReferences(t: Tables, u: UserId, enable: set<NodeId>, disable: set<NodeId>,
                               ids: NodeId -> CredentialId, c: Tables)
    requires References(t) && ReplacementSets(t, u, enable, disable) && FreshFor(t.credentials, enable, ids)
    requires c == ReplacedTables(t, u, enable, disable, ids)
    ensures References(c)
  {
    assert c.credentials == Change(t.credentials, u, enable, disable, ids);
    hide Reassign, Change;
    ReassignedRows(t.assignments, u, enable, disable);
    ChangeKeepsPairs(t.credentials, t.assignments, c.assignments, u, enable, disable, ids);
    ReassignedKnown(t, u, enable, disable);
    hide References, ReplacementSets;
    assert forall a :: a in c.assignments ==> a.user in c.accounts && a.node in c.nodes;
    assert forall x :: x in c.credentials ==> Pair(c.credentials[x].user, c.credentials[x].node) in c.assignments;
    ReferencesIntro(c);
  }

  lemma ReferencesIntro(c: Tables)
    requires forall a :: a in c.assignments ==> a.user in c.accounts && a.node in c.nodes
    requires forall x :: x in c.credentials ==> Pair(c.credentials[x].user, c.credentials[x].node) in c.assignments
    ensures References(c)
  {
  }

  lemma ReassignedKnown(t: Tables, u: UserId, enable: set<NodeId>, disable: set<NodeId>)
    requires References(t) && ReplacementSets(t, u, enable, disable)
    ensures forall a :: a in Reassign(t.assignments, u, enable, disable) ==> a.user in t.accounts && a.node in t.nodes
  {
  }

  lemma ChangeKeepsPairs(cs: CredentialTable, a: AssignmentTable, b: AssignmentTable, u: UserId,
                         enable: set<NodeId>, disable: set<NodeId>, ids: NodeId -> CredentialId)
    requires FreshFor(cs, enable, ids) && enable !! disable
    requires forall c :: c in cs ==> Pair(cs[c].user, cs[c].node) in a
    requires (forall p :: p in a ==> p in b) && (forall n :: n in enable ==> Pair(u, n) in b)
    ensures var ds := Change(cs, u, enable, disable, ids);
            forall c :: c in ds ==> Pair(ds[c].user, ds[c].node) in b
  {
  }

  lemma ReplaceKeepsServed(t: Tables, u: UserId, enable: set<NodeId>, disable: set<NodeId>,
                           ids: NodeId -> CredentialId, c: Tables)
    requires EnabledIsServed(t) && DeletedIsClosed(t) && ReplacementSets(t, u, enable, disable)
    requires FreshFor(t.credentials, enable, ids) && c == ReplacedTables(t, u, enable, disable, ids)
    requires forall n :: n in enable ==> Ready(t, n)
    ensures EnabledIsServed(c) && DeletedIsClosed(c)
  {
    ReassignedRows(t.assignments, u, enable, disable);
    hide Reassign;
    forall a | a in c.assignments && c.assignments[a] == Enabled
      ensures a.node in c.nodes && c.nodes[a.node].status == NodeActive && c.nodes[a.node].desired > 0
    {
      if a.user == u && a.node in enable {
        assert Ready(t, a.node);
      }
    }
  }

  lemma ReplaceKeepsSound(t: Tables, u: UserId, enable: set<NodeId>, disable: set<NodeId>,
                          ids: NodeId -> CredentialId, c: Tables)
    requires AccountsSound(t) && ReplacementSets(t, u, enable, disable) && FreshFor(t.credentials, enable, ids)
    requires c == ReplacedTables(t, u, enable, disable, ids)
    requires forall n :: n in enable ==> Ready(t, n)
    ensures AccountsSound(c) && Closes(t.credentials, c.credentials)
  {
    assert c.credentials == Change(t.credentials, u, enable, disable, ids);
    ChangeKeepsVersions(t.credentials, u, enable, disable, ids);
    ChangeCloses(t.credentials, u, enable, disable, ids);
    ReassignedRows(t.assignments, u, enable, disable);
    ChangeKeepsEnabled(t.credentials, t.assignments, c.assignments, u, enable, disable, ids);
    ReplaceKeepsReferences(t, u, enable, disable, ids, c);
    ReplaceKeepsServed(t, u, enable, disable, ids, c);
  }

  lemma ReplacedParts(t: Tables, u: UserId, enable: set<NodeId>, disable: set<NodeId>, ids: NodeId -> CredentialId)
    requires FreshFor(t.credentials, enable, ids)
    ensures var c := ReplacedTables(t, u, enable, disable, ids);
            && c.credentials == Change(t.credentials, u, enable, disable, ids)
            && c.assignments == Reassign(t.assignments, u, enable, disable) && c.accounts == t.accounts
  {
  }

  lemma ReplaceIsLocal(t: Tables, u: UserId, enable: set<NodeId>, disable: set<NodeId>,
                       ids: NodeId -> CredentialId, c: Tables)
    requires enable !! disable && FreshFor(t.credentials, enable, ids)
    requires c == ReplacedTables(t, u, enable, disable, ids)
    ensures LocalTo(t, c, u, enable + disable)
  {
    hide Reassign, Change, ReplacedTables, FreshFor, CredentialsLocal, AssignmentsLocal, RetirePairs, IssuePairs,
         RevokePairs;
    ReplacedParts(t, u, enable, disable, ids);
    ReassignIsLocal(t.assignments, u, enable, disable);
    ChangeIsLocal(t.credentials, u, enable, disable, ids);
  }

  lemma ReassignIsLocal(a: AssignmentTable, u: UserId, enable: set<NodeId>, disable: set<NodeId>)
    requires enable !! disable
    ensures AssignmentsLocal(a, Reassign(a, u, enable, disable), u, enable + disable)
  {
  }

  lemma ReplaceSetsHold(t: Tables, u: UserId, requested: set<NodeId>)
    requires u in t.accounts && t.accounts[u] == AccountActive && Unassignable(t, requested) == {}
    ensures ReplacementSets(t, u, ToEnable(t, u, requested), ToDisable(t, u, requested))
  {
    forall n | n in ToEnable(t, u, requested) ensures n in t.nodes {
      assert n !in Unassignable(t, requested);
    }
  }

  lemma ReplaceCommits(t: Tables, u: UserId, enable: set<NodeId>, disable: set<NodeId>,
                       ids: NodeId -> CredentialId, c: Tables)
    requires Inv(t) && ReplacementSets(t, u, enable, disable) && FreshFor(t.credentials, enable, ids)
    requires c == ReplacedTables(t, u, enable, disable, ids)
    requires forall n :: n in enable ==> Ready(t, n)
    ensures Inv(c) && SameLog(t, c) && Closes(t.credentials, c.credentials)
    ensures forall n :: n in t.nodes && n !in enable + disable ==> Compiled(c, n) == Compiled(t, n)
  {
    hide Inv, AccountsSound, Closes, LocalTo, Compiled, FreshFor, Ready;
    InvIsSound(t);
    ReplaceKeepsSound(t, u, enable, disable, ids, c);
    ChangeKeepsInv(t, c);
    ReplaceIsLocal(t, u, enable, disable, ids, c);
    forall n | n in t.nodes && n !in enable + disable ensures Compiled(c, n) == Compiled(t, n) {
      PolicyElsewhere(t, c, u, enable + disable, n);
    }
  }

  /** The guards of replacement that do not depend on publication. */
  ghost predicate ReplaceAdmitted(t: Tables, u: UserId, requested: set<NodeId>, ids: NodeId -> CredentialId) {
    && |requested| <= 100
    && u in t.accounts && t.accounts[u] == AccountActive
    && Unassignable(t, requested) == {}
    && requested * NodesWith(t, u, Deleted) == {}
    && FreshFor(t.credentials, ToEnable(t, u, requested), ids)
  }

  lemma ReplaceUnfolds(t: Tables, u: UserId, requested: set<NodeId>, ids: NodeId -> CredentialId,
                       seeds: NodeId -> DesiredUser)
    ensures ReplaceNodes(t, u, requested, ids, seeds).Ok? ==> ReplaceAdmitted(t, u, requested, ids)
    ensures ReplaceAdmitted(t, u, requested, ids) ==>
            ReplaceNodes(t, u, requested, ids, seeds) ==
            PublishAll(ReplacedTables(t, u, ToEnable(t, u, requested), ToDisable(t, u, requested), ids),
                       ToEnable(t, u, requested) + ToDisable(t, u, requested), seeds)
  {
  }

  lemma ReplaceNodesChanges(t: Tables, u: UserId, requested: set<NodeId>, ids: NodeId -> CredentialId,
                            seeds: NodeId -> DesiredUser, q: Tables) returns (c: Tables)
    requires Inv(t) && ReplaceNodes(t, u, requested, ids, seeds) == Ok(q)
    ensures ReplaceAdmitted(t, u, requested, ids)
    ensures c == ReplacedTables(t, u, ToEnable(t, u, requested), ToDisable(t, u, requested), ids)
    ensures AccountChange(t, c, q, ToEnable(t, u, requested) + ToDisable(t, u, requested))
  {
    hide Inv, ReplaceNodes, PublishAll, Closes, Compiled, Published, FreshFor, Ready;
    ReplaceUnfolds(t, u, requested, ids, seeds);
    var enable := ToEnable(t, u, requested);
    var disable := ToDisable(t, u, requested);
    c := ReplacedTables(t, u, enable, disable, ids);
    PublishAllNeedsReady(c, enable + disable, seeds);
    ReadyIgnoresAccounts(t, c, enable);
    ReplaceSetsHold(t, u, requested);
    ReplaceCommits(t, u, enable, disable, ids, c);
    PublishAllEffect(c, enable + disable, seeds, q);
  }

  lemma ReadyIgnoresAccounts(t: Tables, c: Tables, ns: set<NodeId>)
    requires c.nodes == t.nodes && forall n :: n in ns ==> Ready(c, n)
    ensures forall n :: n in ns ==> Ready(t, n)
  {
  }
}
