/** Operator steps on published state: configuration publication, reconciliation, canary rotation and
    cohort rollback. */
module Operator {
  import opened Domain
  import opened Ordering
  import opened DesiredState
  import opened Plane
  import opened RevisionLog
  import opened Credentials
  import opened Publication
  import opened Accounts
  import opened Nodes

  // ----- publication of the compiled policy -----

  /** The new revision of node `n` carries the given configuration and the live policy. */
  ghost predicate NewestCarries(t: Tables, q: Tables, n: NodeId, configuration: Configuration) {
    && q.credentials == t.credentials && q.assignments == t.assignments && q.accounts == t.accounts
    && q.replays == t.replays && q.journal == t.journal
    && q.last == t.last + 1 && q.last in q.revisions
    && q.revisions[q.last].node == n
    && q.revisions[q.last].configuration == CanonicalConfiguration(configuration)
    && q.revisions[q.last].members == Compiled(t, n) == Compiled(q, n)
    && n in q.nodes && q.nodes[n].desired == q.last
    && n in q.canaries && q.revisions[q.last].canary == q.canaries[n].identity
    && (n in t.canaries ==> q.canaries[n] == t.canaries[n])
    && LogExtended(t, q)
  }

  lemma PublishedOneCarries(t: Tables, n: NodeId, configuration: Configuration, q: Tables)
    requires PublishedOne(t, n, configuration, Compiled(t, n), q) && LogExtended(t, q)
    ensures NewestCarries(t, q, n, configuration)
  {
    hide LogExtended, Compiled, CanonicalConfiguration, CanonicalUsers, AcceptableUsers, ValidConfiguration;
    PublishedOneTables(t, n, configuration, Compiled(t, n), q);
    SamePolicy(t, q, n);
  }

  lemma PublishCompiledKeeps(t: Tables, n: NodeId, configuration: Configuration, seed: DesiredUser, q: Tables)
    requires Inv(t) && PublishCompiled(t, n, configuration, seed) == Ok(q)
    ensures Inv(q) && NewestCarries(t, q, n, configuration)
    ensures ValidConfiguration(SCHEMA_VERSION, configuration)
  {
    hide Inv, LogInv, LogExtended, NewestCarries, Publish;
    PublishEffect(t, n, configuration, Compiled(t, n), seed, q);
    PublishKeepsInv(t, n, configuration, Compiled(t, n), q);
    InvLog(t);
    PublishKeepsLog(t, n, configuration, Compiled(t, n), q);
    PublishedOneCarries(t, n, configuration, q);
  }

  lemma InvLog(t: Tables)
    requires Inv(t)
    ensures LogInv(t)
  {
  }

  lemma PublishDesiredKeeps(t: Tables, n: NodeId, configuration: Configuration, seed: DesiredUser, q: Tables)
    requires Inv(t) && PublishDesired(t, n, configuration, seed) == Ok(q)
    ensures Inv(q) && NewestCarries(t, q, n, configuration)
  {
    hide Inv, PublishCompiled, NewestCarries;
    PublishCompiledKeeps(t, n, configuration, seed, q);
  }

  // ----- reconciliation -----

  /** The newest revision of the node is the live policy plus the current canary, and has not failed. */
  ghost predicate Reconciles(t: Tables, n: NodeId) {
    && n in t.nodes && t.nodes[n].desired in t.revisions && n in t.canaries
    && var v := t.revisions[t.nodes[n].desired];
       && v.members == Compiled(t, n)
       && v.users == CanonicalUsers(MemberUsers(t, Compiled(t, n)) + {t.canaries[n].identity})
       && t.canaries[n].identity !in MemberUsers(t, Compiled(t, n))
       && ResultKey(t.nodes[n].desired, Rejected) !in t.journal
       && ResultKey(t.nodes[n].desired, RolledBack) !in t.journal
  }

  lemma CanaryKnown(t: Tables, n: NodeId, seed: DesiredUser)
    requires Inv(t) && n in t.nodes && t.nodes[n].desired != 0
    ensures n in t.canaries && CanaryFor(t, n, seed) == t.canaries[n] && t.canaries[n := CanaryFor(t, n, seed)]
            == t.canaries
    ensures t.nodes[n].desired in t.revisions
  {
    hide Inv, LogInv;
    InvLog(t);
    LogDesired(t, n);
  }

  lemma LogDesired(t: Tables, n: NodeId)
    requires LogInv(t) && n in t.nodes
    ensures DesiredKnown(t, n)
  {
  }

  lemma NoRecordYet(t: Tables, r: nat)
    requires LogInv(t) && r > t.last
    ensures forall s :: ResultKey(r, s) !in t.journal
  {
  }

  lemma InvDocument(t: Tables, r: nat)
    requires Inv(t) && r in t.revisions
    ensures DocumentFaithful(t, r)
  {
  }

  /** A revision just published reconciles: its users are the canonical policy and nothing failed. */
  lemma PublishedReconciles(t: Tables, q: Tables, n: NodeId, configuration: Configuration)
    requires Inv(t) && Inv(q) && NewestCarries(t, q, n, configuration)
    ensures Reconciles(q, n)
  {
    hide Inv, LogInv, CanonicalUsers, Compiled, LogExtended, CanonicalConfiguration, ValidConfiguration;
    InvLog(t);
    NoRecordYet(t, q.last);
    InvDocument(q, q.last);
  }

  /** The two outcomes of a reconciliation. */
  lemma ReconcileCases(t: Tables, n: NodeId, seed: DesiredUser, out: Reconciled)
    requires Inv(t) && Reconcile(t, n, seed) == Ok(out)
    ensures n in t.nodes && t.nodes[n].status == NodeActive && t.nodes[n].desired != 0
            && t.nodes[n].desired in t.revisions
    ensures n in t.canaries
    ensures if Reconciles(t, n) then out == Reconciled(t, false)
            else
              && out.created
              && PublishCompiled(t, n, t.revisions[t.nodes[n].desired].configuration, seed) == Ok(out.tables)
  {
    hide Inv, Publish, CanonicalUsers, Compiled;
    assert n in t.nodes && t.nodes[n].desired != 0;
    CanaryKnown(t, n, seed);
    assert UpToDate(t, n, CanaryFor(t, n, seed)) <==> Reconciles(t, n);
    assert t.(canaries := t.canaries[n := CanaryFor(t, n, seed)]) == t;
  }

  /** Reconciliation is correct: it reports `unchanged` exactly when the newest revision already is the
      live policy and has not failed, changing nothing; otherwise it publishes one revision that is. */
  lemma ReconcileCorrect(t: Tables, n: NodeId, seed: DesiredUser, out: Reconciled)
    requires Inv(t) && Reconcile(t, n, seed) == Ok(out)
    ensures Inv(out.tables) && Reconciles(out.tables, n) && out.tables.credentials == t.credentials
    ensures !out.created <==> Reconciles(t, n)
    ensures if out.created then out.tables.last == t.last + 1 else out.tables == t
  {
    hide Inv, PublishCompiled, Reconcile, Reconciles, LogExtended, Compiled, CanonicalConfiguration;
    ReconcileCases(t, n, seed, out);
    if !Reconciles(t, n) {
      var configuration := t.revisions[t.nodes[n].desired].configuration;
      PublishCompiledKeeps(t, n, configuration, seed, out.tables);
      PublishedReconciles(t, out.tables, n, configuration);
    }
  }

  /** A second reconciliation right after any reconciliation publishes nothing. */
  lemma ReconcileIdempotent(t: Tables, n: NodeId, seed: DesiredUser, again: DesiredUser, out: Reconciled)
    requires Inv(t) && Reconcile(t, n, seed) == Ok(out)
    ensures Reconcile(out.tables, n, again) == Ok(Reconciled(out.tables, false))
  {
    hide Inv, Reconcile, Reconciles;
    ReconcileCorrect(t, n, seed, out);
    ReconcileActive(t, n, seed, out);
    ReconcilesMeansUnchanged(out.tables, n, again);
  }

  lemma ReconcileActive(t: Tables, n: NodeId, seed: DesiredUser, out: Reconciled)
    requires Inv(t) && Reconcile(t, n, seed) == Ok(out)
    ensures n in out.tables.nodes && out.tables.nodes[n].status == NodeActive && out.tables.nodes[n].desired != 0
  {
    hide Inv, PublishCompiled, Reconcile, Reconciles, Compiled, CanonicalConfiguration;
    ReconcileCases(t, n, seed, out);
    if !Reconciles(t, n) {
      PublishCompiledKeeps(t, n, t.revisions[t.nodes[n].desired].configuration, seed, out.tables);
      assert DesiredAdvanced(t.nodes[n], out.tables.nodes[n]);
    }
  }

  lemma ReconcilesMeansUnchanged(t: Tables, n: NodeId, seed: DesiredUser)
    requires Inv(t) && Reconciles(t, n) && t.nodes[n].status == NodeActive && t.nodes[n].desired != 0
    ensures Reconcile(t, n, seed) == Ok(Reconciled(t, false))
  {
    hide Inv, CanonicalUsers, Compiled, CanonicalConfiguration, ValidConfiguration;
    CanaryKnown(t, n, seed);
    NoDuplicates(t, n);
    LatestIsStored(t, n);
    assert UpToDate(t, n, CanaryFor(t, n, seed));
    assert t.(canaries := t.canaries[n := CanaryFor(t, n, seed)]) == t;
  }

  // ----- canary rotation -----

  lemma CanaryChangeKeepsInv(t: Tables, n: NodeId, canary: Canary)
    requires Inv(t)
    ensures Inv(t.(canaries := t.canaries[n := canary]))
  {
    hide LogInv, AccountsSound, StatusesDecided, SnapshotsLocal, VersionsDistinct, LiveIsNewest, LiveIsEnabled,
         DocumentFaithful,
         Advances, Closes;
    var c := t.(canaries := t.canaries[n := canary]);
    SameNodesUntouched(t, c);
    UntouchedKeepsLog(t, c);
    InvIsSound(t);
    SoundIgnoresCanaries(t, c);
    AdvancesReflexive(t.credentials);
    ClosesNothing(t.credentials);
    ClosesKeepsStatuses(t, c);
    DocumentsStable(t, c);
    SoundParts(c);
  }

  lemma SoundIgnoresCanaries(t: Tables, c: Tables)
    requires AccountsSound(t) && c == t.(canaries := c.canaries)
    ensures AccountsSound(c)
  {
  }

  /** Rotation makes the next generation the node's only active canary and publishes it at once, so the
      retired canary is not in the node's newest revision. */
  lemma RotateCanaryKeeps(t: Tables, n: NodeId, seed: DesiredUser, q: Tables)
    requires Inv(t) && RotateCanary(t, n, seed) == Ok(q)
    ensures Inv(q) && n in t.canaries && n in q.canaries && q.credentials == t.credentials
    ensures q.canaries[n] == Canary(seed, t.canaries[n].generation + 1,
            t.canaries[n].retired + {t.canaries[n].identity.credential})
    ensures forall m :: m != n && m in t.canaries ==> m in q.canaries && q.canaries[m] == t.canaries[m]
    ensures q.last == t.last + 1 && n in q.nodes && q.nodes[n].desired == q.last
    ensures q.last in q.revisions && q.revisions[q.last].canary == seed && q.revisions[q.last].members == Compiled(q, n)
    ensures t.canaries[n].identity.credential != seed.credential
  {
    hide Inv, PublishCompiled, Compiled, CanonicalConfiguration, ValidConfiguration, LogExtended;
    CanaryKnown(t, n, seed);
    LatestIsStored(t, n);
    var next := Canary(seed, t.canaries[n].generation + 1, t.canaries[n].retired + {t.canaries[n].identity.credential});
    var c := t.(canaries := t.canaries[n := next]);
    var configuration := t.revisions[t.nodes[n].desired].configuration;
    assert PublishCompiled(c, n, configuration, seed) == Ok(q);
    RotatedCanaries(c, n, configuration, seed, q);
    hide RotateCanary;
    CanaryChangeKeepsInv(t, n, next);
    PublishCompiledKeeps(c, n, configuration, seed, q);
  }

  lemma RotatedCanaries(c: Tables, n: NodeId, configuration: Configuration, seed: DesiredUser, q: Tables)
    requires PublishCompiled(c, n, configuration, seed) == Ok(q) && n in c.canaries
    ensures q.canaries == c.canaries
  {
  }
}
