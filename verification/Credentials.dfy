/** Member credentials: at most one live credential per assignment, always of its highest version and
    only on an enabled assignment; and every unrevoked status is decided by the applied revision. */
module Credentials {
  import opened Domain
  import opened DesiredState
  import opened Plane
  import opened RevisionLog

  type CredentialTable = map<CredentialId, Credential>
  type AssignmentTable = map<Pair, AssignmentStatus>

  predicate SamePair(a: Credential, b: Credential) {
    a.user == b.user && a.node == b.node
  }

  // ----- invariants -----

  /** No two credentials of one assignment share a version. */
  ghost predicate VersionsDistinct(cs: CredentialTable) {
    forall c, d :: c in cs && d in cs && SamePair(cs[c], cs[d]) && cs[c].version == cs[d].version ==> c == d
  }

  /** A live credential has its assignment's highest version. */
  ghost predicate LiveIsNewest(cs: CredentialTable) {
    forall c, d :: c in cs && d in cs && Live(cs[c].status) && SamePair(cs[c], cs[d]) ==> cs[d].version <= cs[c].version
  }

  ghost predicate LiveIsEnabled(cs: CredentialTable, a: AssignmentTable) {
    forall c :: c in cs && Live(cs[c].status) ==>
          Pair(cs[c].user, cs[c].node) in a && a[Pair(cs[c].user, cs[c].node)] == Enabled
  }

  /** Foreign keys: a credential has its assignment, an assignment its account and node. */
  ghost predicate References(t: Tables) {
    && (forall c :: c in t.credentials ==> Pair(t.credentials[c].user, t.credentials[c].node) in t.assignments)
    && (forall a :: a in t.assignments ==> a.user in t.accounts && a.node in t.nodes)
  }

  /** An enabled assignment points at an active node that already has a desired revision. */
  ghost predicate EnabledIsServed(t: Tables) {
    forall a :: a in t.assignments && t.assignments[a] == Enabled ==>
      a.node in t.nodes && t.nodes[a.node].status == NodeActive && t.nodes[a.node].desired > 0
  }

  ghost predicate DeletedIsClosed(t: Tables) {
    forall a :: a in t.assignments && a.user in t.accounts && t.accounts[a.user] == AccountDeleted ==>
      t.assignments[a] == Deleted
  }

  /** A snapshot holds credentials of its own node only. */
  ghost predicate SnapshotsLocal(t: Tables) {
    forall r, c :: r in t.revisions && c in t.revisions[r].members ==>
      c in t.credentials && t.credentials[c].node == t.revisions[r].node
  }

  /** Whether the credential is in the snapshot of its node's applied revision. */
  predicate InApplied(t: Tables, c: CredentialId)
    requires c in t.credentials
  {
    var n := t.credentials[c].node;
    n in t.nodes && t.nodes[n].applied in t.revisions && c in t.revisions[t.nodes[n].applied].members
  }

  ghost predicate DecidedByApplied(t: Tables, c: CredentialId)
    requires c in t.credentials
  {
    match t.credentials[c].status
    case Pending => !InApplied(t, c)
    case Active => InApplied(t, c)
    case Retiring => InApplied(t, c)
    case Revoked => true
  }

  ghost predicate StatusesDecided(t: Tables) {
    forall c :: c in t.credentials ==> DecidedByApplied(t, c)
  }

  ghost predicate CredentialInv(t: Tables) {
    && VersionsDistinct(t.credentials)
    && LiveIsNewest(t.credentials)
    && LiveIsEnabled(t.credentials, t.assignments)
    && References(t)
    && EnabledIsServed(t)
    && DeletedIsClosed(t)
    && SnapshotsLocal(t)
    && StatusesDecided(t)
  }

  /** At most one live credential per assignment. */
  lemma OneLiveCredential(t: Tables, c: CredentialId, d: CredentialId)
    requires VersionsDistinct(t.credentials) && LiveIsNewest(t.credentials)
    requires c in t.credentials && d in t.credentials && SamePair(t.credentials[c], t.credentials[d])
    requires Live(t.credentials[c].status) && Live(t.credentials[d].status)
    ensures c == d
  {
  }

  /** The defensive duplicate check of compilation never fires. */
  lemma CompileNeverRefuses(t: Tables, n: NodeId)
    requires VersionsDistinct(t.credentials) && LiveIsNewest(t.credentials)
    ensures !DuplicateUser(t, Compiled(t, n))
  {
  }

  // ----- forward-only status changes -----

  function StatusRank(s: CredentialStatus): nat {
    match s
    case Pending => 0
    case Active => 1
    case Retiring => 2
    case Revoked => 3
  }

  ghost predicate SameIdentity(a: Credential, b: Credential) {
    a.user == b.user && a.node == b.node && a.version == b.version
  }

  /** Rows are never removed, never change identity, and their status never moves backwards. */
  ghost predicate Advances(before: CredentialTable, after: CredentialTable) {
    forall c :: c in before ==>
      c in after && SameIdentity(before[c], after[c]) && StatusRank(before[c].status) <= StatusRank(after[c].status)
  }

  /** An administrative change: existing credentials stay, are revoked, or retire when active; every
      other row is new and pending. */
  ghost predicate Closes(before: CredentialTable, after: CredentialTable) {
    && (forall c :: c in before ==> c in after && ClosedRow(before[c], after[c]))
    && (forall c :: c in after && c !in before ==> after[c].status == Pending)
  }

  predicate ClosedRow(a: Credential, b: Credential) {
    b == a || b == a.(status := Revoked) || (a.status == Active && b == a.(status := Retiring))
  }

  lemma ClosesAdvances(before: CredentialTable, after: CredentialTable)
    requires Closes(before, after)
    ensures Advances(before, after)
  {
  }

  lemma ClosesNothing(cs: CredentialTable)
    ensures Closes(cs, cs)
  {
  }

  lemma RevokeCloses(cs: CredentialTable, u: UserId, ns: set<NodeId>)
    ensures Closes(cs, RevokePairs(cs, u, ns))
  {
  }

  lemma RevokeUserCloses(cs: CredentialTable, u: UserId)
    ensures Closes(cs, RevokeUser(cs, u))
  {
  }

  lemma RetireCloses(cs: CredentialTable, u: UserId, ns: set<NodeId>)
    ensures Closes(cs, RetirePairs(cs, u, ns))
  {
  }

  /** An administrative change keeps every status decided by the (unchanged) applied snapshots. */
  lemma ClosesKeepsStatuses(t: Tables, q: Tables)
    requires SnapshotsLocal(t) && StatusesDecided(t)
    requires Closes(t.credentials, q.credentials)
    requires q.revisions == t.revisions
    requires forall n :: n in t.nodes ==> n in q.nodes && q.nodes[n].applied == t.nodes[n].applied
    requires forall n :: n in q.nodes && n !in t.nodes ==> q.nodes[n].applied !in q.revisions
    ensures SnapshotsLocal(q) && StatusesDecided(q)
  {
  }

  /** Closing credentials without issuing any keeps versions distinct and live ones newest. */
  lemma ClosingKeepsVersions(cs: CredentialTable, after: CredentialTable)
    requires VersionsDistinct(cs) && LiveIsNewest(cs) && Closes(cs, after) && after.Keys == cs.Keys
    ensures VersionsDistinct(after) && LiveIsNewest(after)
  {
  }

  // ----- issuing -----

  lemma IssuedRows(cs: CredentialTable, u: UserId, ns: set<NodeId>, ids: NodeId -> CredentialId)
    requires FreshFor(cs, ns, ids)
    ensures var after := IssuePairs(cs, u, ns, ids);
            && (forall c :: c in cs ==> c in after && after[c] == cs[c])
            && (forall c :: c in after && c !in cs ==> exists n :: n in ns && c == ids(n))
            && (forall n :: n in ns ==>
                   ids(n) in after && after[ids(n)] == Credential(u, n, NextVersion(cs, u, n), Pending))
  {
  }

  lemma NextVersionIsNewest(cs: CredentialTable, u: UserId, n: NodeId, c: CredentialId)
    requires c in cs && cs[c].user == u && cs[c].node == n
    ensures cs[c].version < NextVersion(cs, u, n)
  {
    assert cs[c].version in Versions(cs, u, n);
  }

  /** Issuing on assignments without live credentials keeps the version invariants. */
  lemma IssueKeepsVersions(cs: CredentialTable, u: UserId, ns: set<NodeId>, ids: NodeId -> CredentialId)
    requires VersionsDistinct(cs) && LiveIsNewest(cs) && FreshFor(cs, ns, ids)
    requires forall c :: c in cs && Of(cs[c], u, ns) ==> !Live(cs[c].status)
    ensures VersionsDistinct(IssuePairs(cs, u, ns, ids)) && LiveIsNewest(IssuePairs(cs, u, ns, ids))
  {
    var after := IssuePairs(cs, u, ns, ids);
    IssuedRows(cs, u, ns, ids);
    forall c, d | c in after && d in after && SamePair(after[c], after[d])
      ensures after[c].version == after[d].version ==> c == d
      ensures Live(after[c].status) ==> after[d].version <= after[c].version
    {
      if c in cs && d in cs {
      } else if c in cs {
        var n :| n in ns && d == ids(n);
        NextVersionIsNewest(cs, u, n, c);
      } else if d in cs {
        var n :| n in ns && c == ids(n);
        NextVersionIsNewest(cs, u, n, d);
      } else {
        var m :| m in ns && c == ids(m);
        var n :| n in ns && d == ids(n);
      }
    }
  }

  /** Revoke-and-issue on some nodes, then retire on others: the shape of every account change. */
  ghost function Change(cs: CredentialTable, u: UserId, enable: set<NodeId>, disable: set<NodeId>,
                        ids: NodeId -> CredentialId): CredentialTable
    requires FreshFor(cs, enable, ids)
  {
    RetirePairs(IssuePairs(RevokePairs(cs, u, enable), u, enable, ids), u, disable)
  }

  lemma ChangeKeepsVersions(cs: CredentialTable, u: UserId, enable: set<NodeId>, disable: set<NodeId>,
                            ids: NodeId -> CredentialId)
    requires VersionsDistinct(cs) && LiveIsNewest(cs) && FreshFor(cs, enable, ids)
    ensures VersionsDistinct(Change(cs, u, enable, disable, ids))
    ensures LiveIsNewest(Change(cs, u, enable, disable, ids))
  {
    var revoked := RevokePairs(cs, u, enable);
    RevokeCloses(cs, u, enable);
    ClosingKeepsVersions(cs, revoked);
    IssueKeepsVersions(revoked, u, enable, ids);
    var issued := IssuePairs(revoked, u, enable, ids);
    RetireCloses(issued, u, disable);
    ClosingKeepsVersions(issued, RetirePairs(issued, u, disable));
  }

  /** The fate of an existing row under a change. */
  function ChangedRow(c: Credential, u: UserId, enable: set<NodeId>, disable: set<NodeId>): Credential {
    if Of(c, u, enable) then c.(status := Revoked)
    else if Of(c, u, disable) then c.(status := RetireStatus(c.status))
    else c
  }

  /** What becomes of each row under a change. */
  lemma ChangedRows(cs: CredentialTable, u: UserId, enable: set<NodeId>, disable: set<NodeId>,
                    ids: NodeId -> CredentialId)
    requires FreshFor(cs, enable, ids) && enable !! disable
    ensures var after := Change(cs, u, enable, disable, ids);
            && (forall c :: c in cs ==> c in after && after[c] == ChangedRow(cs[c], u, enable, disable))
            && (forall c :: c in after && c !in cs ==> exists n :: n in enable && c == ids(n))
            && (forall n :: n in enable ==> ids(n) in after && after[ids(n)].user == u && after[ids(n)].node == n
                                            && after[ids(n)].status == Pending)
  {
  }

  lemma ChangeCloses(cs: CredentialTable, u: UserId, enable: set<NodeId>, disable: set<NodeId>,
                     ids: NodeId -> CredentialId)
    requires FreshFor(cs, enable, ids) && enable !! disable
    ensures Closes(cs, Change(cs, u, enable, disable, ids))
  {
  }

  /** After a change, live credentials sit on enabled assignments if the change enabled the issued
      nodes and left every other assignment of the table enabled unless it is being disabled. */
  lemma ChangeKeepsEnabled(cs: CredentialTable, a: AssignmentTable, b: AssignmentTable, u: UserId,
                           enable: set<NodeId>, disable: set<NodeId>, ids: NodeId -> CredentialId)
    requires FreshFor(cs, enable, ids) && enable !! disable && LiveIsEnabled(cs, a)
    requires forall n :: n in enable ==> Pair(u, n) in b && b[Pair(u, n)] == Enabled
    requires forall p :: p in a && a[p] == Enabled && !(p.user == u && p.node in enable + disable) ==>
               p in b && b[p] == Enabled
    ensures LiveIsEnabled(Change(cs, u, enable, disable, ids), b)
  {
    ChangedRows(cs, u, enable, disable, ids);
    var after := Change(cs, u, enable, disable, ids);
    forall c | c in after && Live(after[c].status)
      ensures Pair(after[c].user, after[c].node) in b && b[Pair(after[c].user, after[c].node)] == Enabled
    {
      if c in cs {
        assert !Of(cs[c], u, enable) && !Of(cs[c], u, disable);
        assert a[Pair(cs[c].user, cs[c].node)] == Enabled;
      } else {
        var n :| n in enable && c == ids(n);
      }
    }
  }
}
