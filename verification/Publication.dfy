/** Publication inside a transaction: what one committed batch of publications does to the tables,
    when it succeeds, and that it keeps every invariant. */
module Publication {
  import opened Domain
  import opened Ordering
  import opened DesiredState
  import opened Plane
  import opened RevisionLog
  import opened Credentials

  /** A stored revision is a canonical document whose users are exactly its snapshot and its canary. */
  ghost predicate DocumentFaithful(t: Tables, r: nat)
    requires r in t.revisions
  {
    var v := t.revisions[r];
    && v.members <= t.credentials.Keys
    && v.users == CanonicalUsers(MemberUsers(t, v.members) + {v.canary})
    && v.canary.credential !in v.members
    && v.configuration == CanonicalConfiguration(v.configuration)
    && ValidConfiguration(SCHEMA_VERSION, v.configuration)
    && ArtifactFits(v.configuration, r, |v.members| + 1)
  }

  ghost predicate DocumentsFaithful(t: Tables) {
    forall r :: r in t.revisions ==> DocumentFaithful(t, r)
  }

  ghost predicate Inv(t: Tables) {
    LogInv(t) && CredentialInv(t) && DocumentsFaithful(t)
  }

  /** Document users depend on credentials only through their (immutable) user. */
  lemma MemberUsersStable(t: Tables, q: Tables, members: set<CredentialId>)
    requires members <= t.credentials.Keys
    requires forall c :: c in t.credentials ==> c in q.credentials && q.credentials[c].user == t.credentials[c].user
    ensures members <= q.credentials.Keys && MemberUsers(q, members) == MemberUsers(t, members)
  {
  }

  lemma DocumentsStable(t: Tables, q: Tables)
    requires DocumentsFaithful(t) && q.revisions == t.revisions && Advances(t.credentials, q.credentials)
    ensures DocumentsFaithful(q)
  {
    forall r | r in q.revisions ensures DocumentFaithful(q, r) {
      assert DocumentFaithful(t, r);
      MemberUsersStable(t, q, t.revisions[r].members);
    }
  }

  // ----- one publication keeps the invariants -----

  lemma PublishKeepsStatuses(t: Tables, n: NodeId, q: Tables)
    requires SnapshotsLocal(t) && StatusesDecided(t) && Appended(t, n, q) && q.credentials == t.credentials
    requires forall m :: m in t.nodes ==> t.nodes[m].applied <= t.last
    requires forall c :: c in q.revisions[q.last].members ==> c in t.credentials && t.credentials[c].node == n
    ensures SnapshotsLocal(q) && StatusesDecided(q)
  {
  }

  lemma AppliedIsPublished(t: Tables)
    requires LogInv(t)
    ensures forall m :: m in t.nodes ==> t.nodes[m].applied <= t.last
  {
  }

  lemma PublishKeepsServed(t: Tables, n: NodeId, q: Tables)
    requires CredentialInv(t) && Appended(t, n, q)
    requires q.credentials == t.credentials && q.assignments == t.assignments && q.accounts == t.accounts
    ensures References(q) && EnabledIsServed(q) && DeletedIsClosed(q)
  {
  }

  lemma PublishKeepsDocuments(t: Tables, n: NodeId, configuration: Configuration, members: set<CredentialId>, q: Tables)
    requires DocumentsFaithful(t) && PublishedOne(t, n, configuration, members, q)
    ensures DocumentsFaithful(q)
  {
    CanonicalConfigurationIdempotent(configuration);
    CanonicalConfigurationValid(SCHEMA_VERSION, configuration);
    forall r | r in q.revisions ensures DocumentFaithful(q, r) {
      if r != q.last {
        assert DocumentFaithful(t, r);
        MemberUsersStable(t, q, t.revisions[r].members);
      } else {
        MemberUsersStable(t, q, members);
      }
    }
  }

  lemma PublishKeepsInv(t: Tables, n: NodeId, configuration: Configuration, members: set<CredentialId>, q: Tables)
    requires Inv(t) && PublishedOne(t, n, configuration, members, q)
    requires forall c :: c in members ==> c in t.credentials && t.credentials[c].node == n
    ensures Inv(q)
  {
    PublishKeepsLog(t, n, configuration, members, q);
    assert Appended(t, n, q);
    AppliedIsPublished(t);
    PublishKeepsStatuses(t, n, q);
    PublishKeepsServed(t, n, q);
    PublishKeepsDocuments(t, n, configuration, members, q);
  }

  // ----- a batch of publications -----

  /** Node `n` received one new revision: the live policy, its previous configuration, its canary. */
  ghost predicate Republished(t: Tables, q: Tables, n: NodeId) {
    && n in t.nodes && n in q.nodes && n in t.canaries
    && t.nodes[n].desired in t.revisions && t.revisions[t.nodes[n].desired].node == n
    && t.last < q.nodes[n].desired <= q.last && q.nodes[n].desired in q.revisions
    && q.nodes[n] == t.nodes[n].(desired := q.nodes[n].desired)
    && CarriesPolicy(t, q.revisions[q.nodes[n].desired], n)
  }

  /** The revision snapshots the live policy; with `DocumentFaithful` its users are that policy. */
  ghost predicate CarriesPolicy(t: Tables, v: Revision, n: NodeId)
    requires n in t.nodes && n in t.canaries && t.nodes[n].desired in t.revisions
  {
    && v.node == n
    && v.members == Compiled(t, n)
    && v.configuration == t.revisions[t.nodes[n].desired].configuration
    && v.canary == t.canaries[n].identity
  }

  /** Existing revisions and other nodes are untouched, and the new revisions are consecutive. */
  ghost predicate OnlyAdds(t: Tables, q: Tables, ns: set<NodeId>) {
    && q == t.(last := q.last, revisions := q.revisions, nodes := q.nodes)
    && q.last == t.last + |ns|
    && (forall r :: r in t.revisions ==> r in q.revisions && q.revisions[r] == t.revisions[r])
    && (forall r :: r in q.revisions ==> r in t.revisions || t.last < r <= q.last)
    && q.nodes.Keys == t.nodes.Keys
    && (forall n :: n in t.nodes && n !in ns ==> q.nodes[n] == t.nodes[n])
  }

  /** Exactly the given nodes were republished, with consecutive revisions, and nothing else changed. */
  ghost predicate Published(t: Tables, q: Tables, ns: set<NodeId>) {
    && OnlyAdds(t, q, ns)
    && (forall n :: n in ns ==> Republished(t, q, n))
    && (forall r :: t.last < r <= q.last ==> NewestOfItsNode(q, ns, r))
  }

  ghost predicate NewestOfItsNode(q: Tables, ns: set<NodeId>, r: nat) {
    && r in q.revisions && q.revisions[r].node in ns
    && q.revisions[r].node in q.nodes && q.nodes[q.revisions[r].node].desired == r
  }

  lemma SamePolicy(t: Tables, q: Tables, n: NodeId)
    requires q.credentials == t.credentials && q.assignments == t.assignments && q.accounts == t.accounts
    ensures Compiled(q, n) == Compiled(t, n)
    ensures MemberUsers(q, Compiled(q, n)) == MemberUsers(t, Compiled(t, n))
  {
  }

  /** The latest configuration of an active node with a baseline. */
  lemma LatestIsStored(t: Tables, n: NodeId)
    requires Inv(t) && n in t.nodes && t.nodes[n].status == NodeActive && t.nodes[n].desired > 0
    ensures t.nodes[n].desired in t.revisions && t.revisions[t.nodes[n].desired].node == n && n in t.canaries
    ensures LatestConfiguration(t, n) == Ok(t.revisions[t.nodes[n].desired].configuration)
    ensures ValidConfiguration(SCHEMA_VERSION, t.revisions[t.nodes[n].desired].configuration)
    ensures CanonicalConfiguration(t.revisions[t.nodes[n].desired].configuration)
            == t.revisions[t.nodes[n].desired].configuration
  {
    assert DesiredKnown(t, n);
    assert DocumentFaithful(t, t.nodes[n].desired);
  }

  lemma AppendedIsPublished(t: Tables, n: NodeId, q: Tables)
    requires Appended(t, n, q) && q == t.(last := q.last, revisions := q.revisions, nodes := q.nodes)
    requires forall r :: r in t.revisions ==> r <= t.last
    requires Republished(t, q, n)
    ensures Published(t, q, {n})
  {
  }

  lemma PublishedOneIsRepublished(t: Tables, n: NodeId, q: Tables)
    requires n in t.nodes && t.nodes[n].desired in t.revisions && t.revisions[t.nodes[n].desired].node == n
             && n in t.canaries
    requires CanonicalConfiguration(t.revisions[t.nodes[n].desired].configuration)
             == t.revisions[t.nodes[n].desired].configuration
    requires PublishedOne(t, n, t.revisions[t.nodes[n].desired].configuration, Compiled(t, n), q)
    ensures Republished(t, q, n) && Appended(t, n, q) && q == t.(last := q.last, revisions := q.revisions,
            nodes := q.nodes)
  {
  }

  lemma RepublishUnfolds(t: Tables, n: NodeId, seed: DesiredUser, q: Tables)
    requires Republish(t, n, seed) == Ok(q)
    ensures n in t.nodes && t.nodes[n].status == NodeActive && t.nodes[n].desired > 0
            && t.nodes[n].desired in t.revisions
    ensures PublishedOne(t, n, t.revisions[t.nodes[n].desired].configuration, Compiled(t, n), q)
  {
  }

  lemma RepublishEffect(t: Tables, n: NodeId, seed: DesiredUser, q: Tables)
    requires Inv(t) && Republish(t, n, seed) == Ok(q)
    ensures Published(t, q, {n}) && Inv(q) && q.last == t.last + 1
  {
    RepublishUnfolds(t, n, seed, q);
    LatestIsStored(t, n);
    PublishKeepsInv(t, n, t.revisions[t.nodes[n].desired].configuration, Compiled(t, n), q);
    PublishedOneIsRepublished(t, n, q);
    AppendedIsPublished(t, n, q);
  }

  lemma OnlyAddsCompose(t: Tables, m: Tables, q: Tables, n: NodeId, rest: set<NodeId>)
    requires OnlyAdds(t, m, {n}) && OnlyAdds(m, q, rest) && n !in rest
    ensures OnlyAdds(t, q, {n} + rest)
  {
  }

  /** A node outside the published set still has the revision it had. */
  lemma KeptRevision(t: Tables, m: Tables, k: NodeId, n: NodeId)
    requires Published(t, m, {n}) && k != n && k in t.nodes
    requires m.nodes[k].desired in m.revisions && m.revisions[m.nodes[k].desired].node == k
    ensures t.nodes[k] == m.nodes[k] && t.nodes[k].desired in t.revisions
    ensures t.revisions[t.nodes[k].desired] == m.revisions[m.nodes[k].desired]
  {
  }

  lemma RepublishedEarlier(t: Tables, m: Tables, q: Tables, n: NodeId, rest: set<NodeId>)
    requires Published(t, m, {n}) && OnlyAdds(m, q, rest) && n !in rest
    ensures Republished(t, q, n)
  {
  }

  lemma RepublishedLater(t: Tables, m: Tables, q: Tables, n: NodeId, rest: set<NodeId>, k: NodeId)
    requires Published(t, m, {n}) && OnlyAdds(m, q, rest) && k != n && Republished(m, q, k)
    ensures Republished(t, q, k)
  {
    KeptRevision(t, m, k, n);
    SamePolicy(t, m, k);
  }

  lemma RepublishedCompose(t: Tables, m: Tables, q: Tables, n: NodeId, rest: set<NodeId>, k: NodeId)
    requires Published(t, m, {n}) && OnlyAdds(m, q, rest) && n !in rest && k in {n} + rest
    requires k in rest ==> Republished(m, q, k)
    ensures Republished(t, q, k)
  {
    if k == n {
      RepublishedEarlier(t, m, q, n, rest);
    } else {
      RepublishedLater(t, m, q, n, rest, k);
    }
  }

  lemma PublishedCompose(t: Tables, m: Tables, q: Tables, n: NodeId, rest: set<NodeId>)
    requires Published(t, m, {n}) && Published(m, q, rest) && n !in rest
    ensures Published(t, q, {n} + rest)
  {
    OnlyAddsCompose(t, m, q, n, rest);
    AllRepublished(t, m, q, n, rest);
    AllNewest(t, m, q, n, rest);
  }

  lemma AllRepublished(t: Tables, m: Tables, q: Tables, n: NodeId, rest: set<NodeId>)
    requires Published(t, m, {n}) && OnlyAdds(m, q, rest) && n !in rest
    requires forall k :: k in rest ==> Republished(m, q, k)
    ensures forall k :: k in {n} + rest ==> Republished(t, q, k)
  {
    forall k | k in {n} + rest ensures Republished(t, q, k) {
      RepublishedCompose(t, m, q, n, rest, k);
    }
  }

  lemma AllNewest(t: Tables, m: Tables, q: Tables, n: NodeId, rest: set<NodeId>)
    requires OnlyAdds(m, q, rest) && n !in rest
    requires forall r :: t.last < r <= m.last ==> NewestOfItsNode(m, {n}, r)
    requires forall r :: m.last < r <= q.last ==> NewestOfItsNode(q, rest, r)
    ensures forall r :: t.last < r <= q.last ==> NewestOfItsNode(q, {n} + rest, r)
  {
    forall r | t.last < r <= q.last ensures NewestOfItsNode(q, {n} + rest, r) {
      NewestCompose(t, m, q, n, rest, r);
    }
  }

  lemma NewestCompose(t: Tables, m: Tables, q: Tables, n: NodeId, rest: set<NodeId>, r: nat)
    requires OnlyAdds(m, q, rest) && n !in rest && t.last < r <= q.last
    requires t.last < r <= m.last ==> NewestOfItsNode(m, {n}, r)
    requires m.last < r <= q.last ==> NewestOfItsNode(q, rest, r)
    ensures NewestOfItsNode(q, {n} + rest, r)
  {
  }

  /** Committing a batch publishes exactly the affected nodes and keeps every invariant. */
  lemma NothingPublished(t: Tables)
    ensures Published(t, t, {})
  {
  }

  lemma {:induction false} PublishAllEffect(t: Tables, ns: set<NodeId>, seeds: NodeId -> DesiredUser, q: Tables)
    requires Inv(t) && PublishAll(t, ns, seeds) == Ok(q)
    ensures Published(t, q, ns) && Inv(q)
    decreases |ns|
  {
    hide Inv, Republish, Published;
    if ns == {} {
      NothingPublished(t);
    } else {
      var n := Least(ns);
      var m := Republish(t, n, seeds(n)).value;
      RepublishEffect(t, n, seeds(n), m);
      PublishAllEffect(m, ns - {n}, seeds, q);
      PublishedCompose(t, m, q, n, ns - {n});
      assert ns == {n} + (ns - {n});
    }
  }

  // ----- when a batch commits -----

  /** The node is active and has a baseline revision to copy its configuration from. */
  predicate Ready(t: Tables, n: NodeId) {
    n in t.nodes && t.nodes[n].status == NodeActive && t.nodes[n].desired > 0
  }

  /** The live policy of the node and its canary fit one document, whose text fits its column when it
      becomes the given revision under the node's newest configuration. */
  ghost predicate Fits(t: Tables, n: NodeId, revision: nat) {
    && n in t.canaries && AcceptableUsers(t, Compiled(t, n), t.canaries[n].identity)
    && n in t.nodes && t.nodes[n].desired in t.revisions
    && ArtifactFits(t.revisions[t.nodes[n].desired].configuration, revision, |Compiled(t, n)| + 1)
  }

  /** Why a publication of a ready node can fail: the revision counter, the document limits or the text. */
  predicate CapacityError(e: PlaneError) {
    e == RevisionOverflow || e == InvalidDocument || e == ArtifactTooLarge
  }

  lemma RepublishCommits(t: Tables, n: NodeId, seed: DesiredUser)
    requires Inv(t) && Ready(t, n)
    ensures Republish(t, n, seed).Ok? <==> t.last < MAX_I64 && Fits(t, n, t.last + 1)
    ensures Republish(t, n, seed).Err? ==> CapacityError(Republish(t, n, seed).error)
  {
    hide Inv, Compiled, AcceptableUsers, ValidConfiguration, ArtifactFits;
    LatestIsStored(t, n);
    NoDuplicates(t, n);
  }

  lemma NoDuplicates(t: Tables, n: NodeId)
    requires Inv(t)
    ensures !DuplicateUser(t, Compiled(t, n))
  {
  }

  lemma PublishedKeepsReady(t: Tables, m: Tables, n: NodeId, k: NodeId)
    requires Inv(t) && Published(t, m, {n}) && Ready(t, k)
    ensures Ready(m, k) && forall r :: Fits(m, k, r) <==> Fits(t, k, r)
  {
    hide Inv, ArtifactFits, Compiled, NewestOfItsNode;
    LatestIsStored(t, k);
    SamePolicy(t, m, k);
    if k == n {
      assert Republished(t, m, n);
    }
  }

  lemma AllStayReady(t: Tables, m: Tables, n: NodeId, rest: set<NodeId>)
    requires Inv(t) && Published(t, m, {n}) && forall k :: k in rest ==> Ready(t, k)
    ensures forall k :: k in rest ==> Ready(m, k) && forall r :: Fits(m, k, r) <==> Fits(t, k, r)
  {
    hide Inv, Published, Ready, Fits;
    forall k | k in rest ensures Ready(m, k) && forall r :: Fits(m, k, r) <==> Fits(t, k, r) {
      PublishedKeepsReady(t, m, n, k);
    }
  }

  /** Position of a node in the ascending order of a batch. */
  ghost function Place(ns: set<NodeId>, n: NodeId): nat {
    |set m | m in ns && m < n|
  }

  lemma PlaceInRest(ns: set<NodeId>, n: NodeId, k: NodeId)
    requires ns != {} && n == Least(ns) && k in ns
    ensures Place(ns, n) == 0
    ensures k != n ==> Place(ns, k) == Place(ns - {n}, k) + 1
  {
    assert (set m | m in ns && m < n) == {};
    if k != n {
      assert (set m | m in ns && m < k) == {n} + (set m | m in ns - {n} && m < k);
    }
  }

  /** Room for a batch: the revision counter, and every document with the number it will get. */
  ghost predicate HasCapacity(t: Tables, ns: set<NodeId>) {
    && (ns == {} || t.last + |ns| <= MAX_I64)
    && forall n :: n in ns ==> Fits(t, n, t.last + 1 + Place(ns, n))
  }

  /** After the first publication the rest of the batch has room exactly when the batch had. */
  lemma CapacityOfRest(t: Tables, m: Tables, ns: set<NodeId>, n: NodeId)
    requires ns != {} && n == Least(ns) && m.last == t.last + 1
    requires Fits(t, n, t.last + 1) && t.last < MAX_I64
    requires forall k :: k in ns - {n} ==> forall r :: Fits(m, k, r) <==> Fits(t, k, r)
    ensures HasCapacity(t, ns) <==> HasCapacity(m, ns - {n})
  {
    hide Fits, Place;
    var rest := ns - {n};
    assert |ns| == |rest| + 1;
    forall k | k in ns ensures Place(ns, n) == 0 && (k != n ==> Place(ns, k) == Place(rest, k) + 1) {
      PlaceInRest(ns, n, k);
    }
    forall k | k in rest
      ensures Fits(m, k, m.last + 1 + Place(rest, k)) <==> Fits(t, k, t.last + 1 + Place(ns, k))
    {
      assert m.last + 1 + Place(rest, k) == t.last + 1 + Place(ns, k);
    }
    assert forall k :: k in ns ==> k == n || k in rest;
  }

  lemma FirstNeedsRoom(t: Tables, ns: set<NodeId>, n: NodeId)
    requires ns != {} && n == Least(ns) && HasCapacity(t, ns)
    ensures t.last < MAX_I64 && Fits(t, n, t.last + 1)
  {
    hide Fits, Place;
    PlaceInRest(ns, n, n);
  }

  /** A batch over ready nodes commits exactly when it has room; it never fails for node status or a
      missing baseline. */
  lemma {:induction false} PublishAllCommits(t: Tables, ns: set<NodeId>, seeds: NodeId -> DesiredUser)
    requires Inv(t) && forall n :: n in ns ==> Ready(t, n)
    ensures PublishAll(t, ns, seeds).Ok? <==> HasCapacity(t, ns)
    ensures PublishAll(t, ns, seeds).Err? ==> CapacityError(PublishAll(t, ns, seeds).error)
    decreases |ns|
  {
    hide Inv, Republish, Ready, Fits, Published, HasCapacity;
    if ns == {} {
      EmptyHasCapacity(t);
    } else {
      var n := Least(ns);
      var rest := ns - {n};
      RepublishCommits(t, n, seeds(n));
      if Republish(t, n, seeds(n)).Ok? {
        var m := Republish(t, n, seeds(n)).value;
        RepublishEffect(t, n, seeds(n), m);
        AllStayReady(t, m, n, rest);
        PublishAllCommits(m, rest, seeds);
        CapacityOfRest(t, m, ns, n);
      } else if HasCapacity(t, ns) {
        FirstNeedsRoom(t, ns, n);
      }
    }
  }

  lemma EmptyHasCapacity(t: Tables)
    ensures HasCapacity(t, {})
  {
  }

  lemma RepublishNeedsReady(t: Tables, n: NodeId, seed: DesiredUser, m: Tables, k: NodeId)
    requires Republish(t, n, seed) == Ok(m)
    ensures Ready(t, n)
    ensures Ready(m, k) && k != n ==> Ready(t, k)
  {
  }

  /** Whatever the tables, a committed batch published ready nodes only. */
  lemma {:induction false} PublishAllNeedsReady(t: Tables, ns: set<NodeId>, seeds: NodeId -> DesiredUser)
    requires PublishAll(t, ns, seeds).Ok?
    ensures forall n :: n in ns ==> Ready(t, n)
    decreases |ns|
  {
    hide Republish, Ready;
    if ns != {} {
      var n := Least(ns);
      var m := Republish(t, n, seeds(n)).value;
      PublishAllNeedsReady(m, ns - {n}, seeds);
      forall k | k in ns ensures Ready(t, k) {
        RepublishNeedsReady(t, n, seeds(n), m, k);
        assert k != n ==> k in ns - {n};
      }
    }
  }
}
