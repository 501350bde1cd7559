/** Operator rollback over a cohort: all-or-nothing, consecutive new revisions, source configuration
    with current users, and idempotent replay of the same request in any target order. */
module Rollback {
  import opened Domain
  import opened Ordering
  import opened DesiredState
  import opened AgentVersion
  import opened Plane
  import opened RevisionLog
  import opened Credentials
  import opened Publication
  import opened Accounts
  import opened Nodes
  import opened Operator

  /** Tables that policy compilation and replay depend on. */
  ghost predicate SamePolicyTables(t: Tables, q: Tables) {
    && q.credentials == t.credentials && q.assignments == t.assignments && q.accounts == t.accounts
    && q.replays == t.replays && q.journal == t.journal
  }

  /** Revision `revision` rolls a target out: the given configuration with the target's live policy. */
  ghost predicate RolledTarget(t: Tables, q: Tables, node: NodeId, configuration: Configuration, revision: nat) {
    && revision in q.revisions
    && q.revisions[revision].node == node
    && q.revisions[revision].configuration == CanonicalConfiguration(configuration)
    && q.revisions[revision].members == Compiled(t, node)
  }

  ghost predicate RevisionsKept(t: Tables, q: Tables) {
    forall r :: r in t.revisions ==> r in q.revisions && q.revisions[r] == t.revisions[r]
  }

  /** The cohort from index 0 on was rolled out with revisions `t.last + 1 ..`. */
  ghost predicate CohortRolled(t: Tables, q: Tables, targets: seq<RollbackTarget>, configurations: seq<Configuration>,
                               publications: seq<RollbackPublication>)
  {
    && |publications| == |targets| == |configurations|
    && q.last == t.last + |targets|
    && forall i :: 0 <= i < |targets| ==>
         && publications[i] == RollbackPublication(targets[i].node, targets[i].source, targets[i].failed,
            t.last + 1 + i)
         && RolledTarget(t, q, targets[i].node, configurations[i], t.last + 1 + i)
  }

  lemma CohortExtends(t: Tables, m: Tables, q: Tables, targets: seq<RollbackTarget>, configurations: seq<Configuration>,
                      rest: seq<RollbackPublication>)
    requires |targets| == |configurations| > 0
    requires SamePolicyTables(t, m) && m.last == t.last + 1
    requires RolledTarget(t, m, targets[0].node, configurations[0], m.last)
    requires CohortRolled(m, q, targets[1..], configurations[1..], rest) && RevisionsKept(m, q)
    ensures CohortRolled(t, q, targets, configurations,
                         [RollbackPublication(targets[0].node, targets[0].source, targets[0].failed, m.last)] + rest)
  {
  }

  lemma CarriesRollsOut(t: Tables, m: Tables, n: NodeId, configuration: Configuration)
    requires NewestCarries(t, m, n, configuration)
    ensures SamePolicyTables(t, m) && m.last == t.last + 1 && RolledTarget(t, m, n, configuration, m.last)
            && RevisionsKept(t, m)
  {
  }

  lemma {:induction false} PublishTargetsEffect(t: Tables, targets: seq<RollbackTarget>,
                                                configurations: seq<Configuration>,
                                                seeds: NodeId -> DesiredUser, out: RolledOut)
    requires Inv(t) && |targets| == |configurations|
    requires PublishTargets(t, targets, configurations, seeds) == Ok(out)
    ensures Inv(out.tables) && SamePolicyTables(t, out.tables) && RevisionsKept(t, out.tables)
    ensures CohortRolled(t, out.tables, targets, configurations, out.publications)
    decreases |targets|
  {
    hide Inv, PublishCompiled, NewestCarries, CohortRolled;
    if targets == [] {
      NothingRolled(t, configurations);
    } else {
      var m := PublishCompiled(t, targets[0].node, configurations[0], seeds(targets[0].node)).value;
      PublishCompiledKeeps(t, targets[0].node, configurations[0], seeds(targets[0].node), m);
      CarriesRollsOut(t, m, targets[0].node, configurations[0]);
      var rest := PublishTargets(m, targets[1..], configurations[1..], seeds).value;
      PublishTargetsEffect(m, targets[1..], configurations[1..], seeds, rest);
      CohortExtends(t, m, rest.tables, targets, configurations, rest.publications);
    }
  }

  lemma NothingRolled(t: Tables, configurations: seq<Configuration>)
    requires configurations == []
    ensures CohortRolled(t, t, [], configurations, [])
  {
  }

  lemma {:induction false} PrepareAllEffect(t: Tables, targets: seq<RollbackTarget>)
    ensures var r := PrepareAll(t, targets);
            && (r.Ok? <==> forall i :: 0 <= i < |targets| ==> PrepareTarget(t, targets[i]).Ok?)
            && (r.Ok? ==> |r.value| == |targets|
                          && forall i :: 0 <= i < |targets| ==> PrepareTarget(t, targets[i]) == Ok(r.value[i]))
  {
    hide PrepareTarget;
    if targets != [] {
      PrepareAllEffect(t, targets[1..]);
      assert forall i :: 0 < i < |targets| ==> targets[i] == targets[1..][i - 1];
      if PrepareTarget(t, targets[0]).Ok? && PrepareAll(t, targets[1..]).Ok? {
        var r := PrepareAll(t, targets).value;
        forall i | 0 <= i < |targets| ensures PrepareTarget(t, targets[i]) == Ok(r[i]) {
          assert i > 0 ==> targets[i] == targets[1..][i - 1];
        }
      }
    }
  }

  lemma TargetOrder()
    ensures TotalOrder(TargetLeq)
  {
  }

  /** A first-time rollback, unfolded. */
  lemma RollbackUnfolds(t: Tables, key: RollbackKey, targets: seq<RollbackTarget>, reason: RollbackReason,
                        seeds: NodeId -> DesiredUser, out: RolledOut)
    requires key !in t.replays && OperatorRollback(t, key, targets, reason, seeds) == Ok(out)
    ensures var ordered := Sort(TargetLeq, targets);
            && PrepareAll(t, ordered).Ok? && |PrepareAll(t, ordered).value| == |ordered|
            && PublishTargets(t, ordered, PrepareAll(t, ordered).value, seeds).Ok?
            && var published := PublishTargets(t, ordered, PrepareAll(t, ordered).value, seeds).value;
               && out.publications == published.publications
               && out.tables == published.tables.(replays :=
                    published.tables.replays[key := RollbackRecord(ordered, reason, out.publications)])
  {
  }

  lemma ReplaysKeepInv(t: Tables, replays: map<RollbackKey, RollbackRecord>)
    requires Inv(t)
    ensures Inv(t.(replays := replays))
  {
    hide LogInv, AccountsSound, StatusesDecided, SnapshotsLocal, VersionsDistinct, LiveIsNewest, LiveIsEnabled,
         DocumentFaithful,
         Advances, Closes;
    var c := t.(replays := replays);
    SameNodesUntouched(t, c);
    UntouchedKeepsLog(t, c);
    InvIsSound(t);
    SoundIgnoresReplays(t, c);
    AdvancesReflexive(t.credentials);
    ClosesNothing(t.credentials);
    ClosesKeepsStatuses(t, c);
    DocumentsStable(t, c);
    SoundParts(c);
  }

  lemma SoundIgnoresReplays(t: Tables, c: Tables)
    requires AccountsSound(t) && c == t.(replays := c.replays)
    ensures AccountsSound(c)
  {
  }

  function Ordered(targets: seq<RollbackTarget>): seq<RollbackTarget> {
    Sort(TargetLeq, targets)
  }

  lemma SortedCohort(targets: seq<RollbackTarget>)
    ensures |Sort(TargetLeq, targets)| == |targets|
  {
    hide Sort;
    TargetOrder();
    SortSorts(TargetLeq, targets);
    assert |Sort(TargetLeq, targets)| == |multiset(Sort(TargetLeq, targets))|;
  }

  /** A committed rollback publishes, for the i-th target in node order, revision `last + 1 + i`: it has
      the source revision's configuration and the users live policy prescribes now, so a credential that
      is no longer live does not come back with the old configuration. */
  lemma RollbackEffect(t: Tables, key: RollbackKey, targets: seq<RollbackTarget>, reason: RollbackReason,
                       seeds: NodeId -> DesiredUser, out: RolledOut)
    requires Inv(t) && key !in t.replays && OperatorRollback(t, key, targets, reason, seeds) == Ok(out)
    ensures Inv(out.tables) && out.tables.credentials == t.credentials
    ensures var ordered := Sort(TargetLeq, targets);
            && |out.publications| == |ordered| == |targets|
            && out.tables.last == t.last + |ordered|
            && forall i :: 0 <= i < |ordered| ==>
                 RolledBackTo(t, out.tables, ordered[i], out.publications[i], t.last + 1 + i)
    ensures key in out.tables.replays
            && out.tables.replays[key] == RollbackRecord(Sort(TargetLeq, targets), reason, out.publications)
  {
    hide Inv, OperatorRollback, PublishTargets, PrepareAll, RolledBackTo, Sort, RevisionsKept;
    var ordered := Sort(TargetLeq, targets);
    SortedCohort(targets);
    RollbackUnfolds(t, key, targets, reason, seeds, out);
    PrepareAllEffect(t, ordered);
    var configurations := PrepareAll(t, ordered).value;
    var published := PublishTargets(t, ordered, configurations, seeds).value;
    PublishTargetsEffect(t, ordered, configurations, seeds, published);
    ReplaysKeepInv(published.tables, out.tables.replays);
    forall i | 0 <= i < |ordered| ensures RolledBackTo(t, out.tables, ordered[i], out.publications[i], t.last + 1 + i) {
      TargetRolledBack(t, published.tables, out.tables, ordered[i], configurations[i], out.publications[i],
          t.last + 1 + i);
    }
  }

  /** The published answer for one target and the revision behind it. */
  ghost predicate RolledBackTo(t: Tables, q: Tables, g: RollbackTarget, p: RollbackPublication, revision: nat) {
    && p == RollbackPublication(g.node, g.source, g.failed, revision)
    && revision in q.revisions && q.revisions[revision].node == g.node
    && g.source in t.revisions && t.revisions[g.source].node == g.node
    && q.revisions[revision].configuration == t.revisions[g.source].configuration
    && q.revisions[revision].members == Compiled(t, g.node)
    && Justified(t, g)
  }

  /** The node's current revision failed, and the source was validated, applied, and still suits its agent. */
  ghost predicate Justified(t: Tables, g: RollbackTarget) {
    && g.node in t.nodes && t.nodes[g.node].status == NodeActive && t.nodes[g.node].desired == g.failed
       && t.nodes[g.node].xray
    && (ResultKey(g.failed, Rejected) in t.journal || ResultKey(g.failed, RolledBack) in t.journal)
    && ResultKey(g.source, Validated) in t.journal && ResultKey(g.source, Applied) in t.journal
    && g.source in t.revisions
    && AgentVersionSatisfies(t.nodes[g.node].agentVersion, t.revisions[g.source].configuration.minAgentVersion)
  }

  lemma TargetRolledBack(t: Tables, m: Tables, q: Tables, g: RollbackTarget, configuration: Configuration,
                         p: RollbackPublication, revision: nat)
    requires Inv(t) && PrepareTarget(t, g) == Ok(configuration)
    requires RolledTarget(t, m, g.node, configuration, revision) && q.revisions == m.revisions
    requires p == RollbackPublication(g.node, g.source, g.failed, revision)
    ensures RolledBackTo(t, q, g, p, revision)
  {
    hide Inv, Compiled, PrepareTarget, JournalSound;
    InvJournal(t);
    PreparedIsJustified(t, g, configuration);
    InvDocument(t, g.source);
  }

  lemma PreparedIsJustified(t: Tables, g: RollbackTarget, configuration: Configuration)
    requires PrepareTarget(t, g) == Ok(configuration) && JournalSound(t)
    ensures Justified(t, g) && t.revisions[g.source].node == g.node && configuration
            == t.revisions[g.source].configuration
  {
  }

  lemma InvJournal(t: Tables)
    requires Inv(t)
    ensures JournalSound(t)
  {
  }

  // ----- replay -----

  /** Repeating a request with the same key answers from the record exactly when it names the same
      targets, in whatever order, for the same reason; anything else under that key is a conflict. */
  lemma RollbackReplays(t: Tables, key: RollbackKey, first: seq<RollbackTarget>, reason: RollbackReason,
                        response: seq<RollbackPublication>, again: seq<RollbackTarget>, reasonAgain: RollbackReason,
                        seeds: NodeId -> DesiredUser)
    requires key in t.replays && t.replays[key] == RollbackRecord(Sort(TargetLeq, first), reason, response)
    requires ValidTargets(again)
    ensures OperatorRollback(t, key, again, reasonAgain, seeds) ==
            if multiset(again) == multiset(first) && reasonAgain == reason then Ok(RolledOut(t, response))
                else Err(KeyConflict)
  {
    TargetOrder();
    SortSorts(TargetLeq, first);
    SortSorts(TargetLeq, again);
    if multiset(again) == multiset(first) {
      SortIgnoresOrder(TargetLeq, again, first);
    }
  }

  lemma RollbackKeepsInv(t: Tables, key: RollbackKey, targets: seq<RollbackTarget>, reason: RollbackReason,
                         seeds: NodeId -> DesiredUser, out: RolledOut)
    requires Inv(t) && OperatorRollback(t, key, targets, reason, seeds) == Ok(out)
    ensures Inv(out.tables) && out.tables.credentials == t.credentials
    ensures key in out.tables.replays
            && out.tables.replays[key] == RollbackRecord(Sort(TargetLeq, targets), reason, out.publications)
  {
    if key !in t.replays {
      hide Inv, OperatorRollback;
      RollbackEffect(t, key, targets, reason, seeds, out);
    }
  }
}
