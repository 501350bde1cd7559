/** The revision log and the result journal: revisions are gapless and each targets one node, the
    journal is append-only, and the cached progress cursors agree with what the journal implies. */
module RevisionLog {
  import opened Domain
  import opened DesiredState
  import opened Plane

  // ----- invariants -----

  ghost predicate TargetKnown(t: Tables, r: nat)
    requires r in t.revisions
  {
    var n := t.revisions[r].node;
    n in t.nodes && r <= t.nodes[n].desired
  }

  ghost predicate DesiredKnown(t: Tables, n: NodeId)
    requires n in t.nodes
  {
    var d := t.nodes[n].desired;
    d == 0 || (d in t.revisions && t.revisions[d].node == n && n in t.canaries)
  }

  /** Revisions are numbered 1..last without gaps, and a node's desired revision is the newest one
      targeted at it. */
  ghost predicate Gapless(t: Tables) {
    && (forall r :: r in t.revisions <==> 1 <= r <= t.last)
    && (forall r :: r in t.revisions ==> TargetKnown(t, r))
    && (forall n :: n in t.nodes ==> DesiredKnown(t, n))
  }

  ghost predicate RecordSound(t: Tables, k: ResultKey)
    requires k in t.journal
  {
    && k.revision in t.revisions
    && t.journal[k].state == k.state
    && ValidResult(t.journal[k], k.revision)
    && (k.state == Applied || k.state == RolledBack ==> ResultKey(k.revision, Validated) in t.journal)
    && (k.state == RolledBack ==> RestoredSuccess(t, k.revision, t.journal[k].rollback.value))
    && (Terminal(k.state) ==>
          forall s :: Terminal(s) && s != k.state ==> ResultKey(k.revision, s) !in t.journal)
  }

  /** A rollback restores a revision of the same node that was applied before. */
  ghost predicate RestoredSuccess(t: Tables, failed: nat, restored: nat)
    requires failed in t.revisions
  {
    && restored in t.revisions
    && t.revisions[restored].node == t.revisions[failed].node
    && ResultKey(restored, Applied) in t.journal
  }

  ghost predicate JournalSound(t: Tables) {
    forall k :: k in t.journal ==> RecordSound(t, k)
  }

  /** Revisions of a node with any record, and with a validation record. */
  ghost function ReportedRevisions(t: Tables, n: NodeId): set<nat> {
    set k | k in t.journal && k.revision in t.revisions && t.revisions[k.revision].node == n :: k.revision
  }

  ghost function ValidatedRevisions(t: Tables, n: NodeId): set<nat> {
    set k | k in t.journal && k.state == Validated && k.revision in t.revisions
            && t.revisions[k.revision].node == n :: k.revision
  }

  ghost predicate CursorsAgree(t: Tables, n: NodeId)
    requires n in t.nodes
  {
    var node := t.nodes[n];
    && node.applied <= node.validated <= node.received <= node.reported <= node.desired <= t.last
    && node.received == MaxOf(ReportedRevisions(t, n))
    && node.validated == MaxOf(ValidatedRevisions(t, n))
    && (node.applied == 0 ||
          (node.applied in t.revisions && t.revisions[node.applied].node == n
              && ResultKey(node.applied, Applied) in t.journal))
  }

  ghost predicate LogInv(t: Tables) {
    && Gapless(t)
    && JournalSound(t)
    && forall n :: n in t.nodes ==> CursorsAgree(t, n)
  }

  // ----- publication -----

  /** The exact effect of one committed publication. */
  ghost predicate PublishedOne(t: Tables, n: NodeId, configuration: Configuration, members: set<CredentialId>,
                               q: Tables) {
    && members <= t.credentials.Keys
    && n in t.nodes && t.nodes[n].status == NodeActive
    && n in q.canaries && (n in t.canaries ==> q.canaries[n] == t.canaries[n])
    && ValidConfiguration(SCHEMA_VERSION, configuration)
    && AcceptableUsers(t, members, q.canaries[n].identity)
    && ArtifactFits(CanonicalConfiguration(configuration), t.last + 1, |members| + 1)
    && q == t.(last := t.last + 1,
               revisions := t.revisions[t.last + 1 := NewRevision(t, n, configuration, members,
                   q.canaries[n].identity)],
               nodes := t.nodes[n := t.nodes[n].(desired := t.last + 1)],
               canaries := t.canaries[n := q.canaries[n]])
  }

  lemma PublishEffect(t: Tables, n: NodeId, configuration: Configuration, members: set<CredentialId>,
                      seed: DesiredUser, q: Tables)
    requires members <= t.credentials.Keys
    requires Publish(t, n, configuration, members, seed) == Ok(q)
    ensures PublishedOne(t, n, configuration, members, q)
  {
  }

  /** The log's share of that effect. */
  ghost predicate Appended(t: Tables, n: NodeId, q: Tables) {
    && n in t.nodes && n in q.canaries
    && q.last == t.last + 1 && q.last in q.revisions
    && q.revisions[q.last].node == n
    && q.revisions == t.revisions[q.last := q.revisions[q.last]]
    && q.nodes == t.nodes[n := t.nodes[n].(desired := q.last)]
    && q.canaries == t.canaries[n := q.canaries[n]]
    && q.journal == t.journal
  }

  /** What publication leaves alone, apart from the new revision and the target's desired cursor. */
  ghost predicate LogExtended(t: Tables, q: Tables) {
    && q.journal == t.journal && t.last <= q.last
    && (forall r :: r in t.revisions ==> r in q.revisions && q.revisions[r] == t.revisions[r])
    && q.nodes.Keys == t.nodes.Keys
    && (forall n :: n in t.nodes ==> DesiredAdvanced(t.nodes[n], q.nodes[n]) && q.nodes[n].desired <= q.last)
  }

  ghost predicate DesiredAdvanced(a: Node, b: Node) {
    a.desired <= b.desired && b == a.(desired := b.desired)
  }

  lemma PublishKeepsLog(t: Tables, n: NodeId, configuration: Configuration, members: set<CredentialId>, q: Tables)
    requires LogInv(t) && PublishedOne(t, n, configuration, members, q)
    ensures LogInv(q) && LogExtended(t, q)
  {
    AppendKeepsGapless(t, n, q);
    AppendExtends(t, n, q);
    ExtendedKeepsRecords(t, q);
  }

  lemma AppendExtends(t: Tables, n: NodeId, q: Tables)
    requires Gapless(t) && Appended(t, n, q)
    requires forall n :: n in t.nodes ==> CursorsAgree(t, n)
    ensures LogExtended(t, q)
  {
    forall m | m in t.nodes ensures DesiredAdvanced(t.nodes[m], q.nodes[m]) && q.nodes[m].desired <= q.last {
      assert CursorsAgree(t, m);
    }
  }

  lemma ExtendedKeepsRecords(t: Tables, q: Tables)
    requires JournalSound(t) && LogExtended(t, q)
    requires forall n :: n in t.nodes ==> CursorsAgree(t, n)
    ensures JournalSound(q)
    ensures forall n :: n in q.nodes ==> CursorsAgree(q, n)
  {
    forall k | k in q.journal ensures RecordSound(q, k) {
      assert RecordSound(t, k);
    }
    forall m | m in q.nodes ensures CursorsAgree(q, m) {
      assert CursorsAgree(t, m);
      PublishKeepsJournalSets(t, q, m);
    }
  }

  lemma AppendKeepsGapless(t: Tables, n: NodeId, q: Tables)
    requires Gapless(t) && Appended(t, n, q)
    ensures Gapless(q)
  {
  }

  lemma PublishKeepsJournalSets(t: Tables, q: Tables, m: NodeId)
    requires JournalSound(t) && q.journal == t.journal
    requires forall r :: r in t.revisions ==> r in q.revisions && q.revisions[r].node == t.revisions[r].node
    ensures ReportedRevisions(q, m) == ReportedRevisions(t, m)
    ensures ValidatedRevisions(q, m) == ValidatedRevisions(t, m)
  {
  }

  // ----- reports -----

  /** The tables after a report, when it is not a replay. */
  ghost predicate Recorded(t: Tables, n: NodeId, revision: nat, r: RevisionResult, q: Tables) {
    && n in t.nodes && revision in t.revisions && t.revisions[revision].node == n
    && ValidResult(r, revision)
    && DependenciesMet(t, n, revision, r)
    && ResultKey(revision, r.state) !in t.journal
    && (forall s :: Terminal(s) ==> ResultKey(revision, s) !in t.journal)
    && q.journal == t.journal[ResultKey(revision, r.state) := r]
    && q.nodes == t.nodes[n := AdvanceCursors(t.nodes[n], revision, r)]
    && q.revisions == t.revisions && q.last == t.last && q.canaries == t.canaries
  }

  lemma RecordResultRecords(t: Tables, n: NodeId, revision: nat, r: RevisionResult, q: Tables)
    requires JournalSound(t) && RecordResult(t, n, revision, r) == Ok(q) && q != t
    ensures Recorded(t, n, revision, r, q)
  {
  }

  lemma RecordedKeepsJournal(t: Tables, n: NodeId, revision: nat, r: RevisionResult, q: Tables)
    requires JournalSound(t) && Recorded(t, n, revision, r, q)
    ensures JournalSound(q)
  {
  }

  lemma RecordedKeepsGapless(t: Tables, n: NodeId, revision: nat, r: RevisionResult, q: Tables)
    requires Gapless(t) && Recorded(t, n, revision, r, q)
    ensures Gapless(q)
  {
  }

  lemma RecordedSets(t: Tables, n: NodeId, revision: nat, r: RevisionResult, q: Tables, m: NodeId)
    requires Recorded(t, n, revision, r, q)
    ensures ReportedRevisions(q, m) == ReportedRevisions(t, m) + (if m == n then {revision} else {})
    ensures ValidatedRevisions(q, m) ==
            ValidatedRevisions(t, m) + (if m == n && r.state == Validated then {revision} else {})
  {
  }

  lemma MaxOfAdd(s: set<nat>, x: nat)
    ensures MaxOf(s + {x}) == Max(MaxOf(s), x)
  {
  }

  lemma RecordedKeepsOthers(t: Tables, n: NodeId, revision: nat, r: RevisionResult, q: Tables, m: NodeId)
    requires Recorded(t, n, revision, r, q) && m in t.nodes && m != n && CursorsAgree(t, m)
    ensures CursorsAgree(q, m)
  {
    RecordedSets(t, n, revision, r, q, m);
  }

  lemma RecordedKeepsTarget(t: Tables, n: NodeId, revision: nat, r: RevisionResult, q: Tables)
    requires Recorded(t, n, revision, r, q) && CursorsAgree(t, n) && TargetKnown(t, revision)
    ensures CursorsAgree(q, n)
  {
    RecordedMaxima(t, n, revision, r, q);
    AppliedIsRecorded(t, n, revision, r, q);
  }

  lemma AppliedIsRecorded(t: Tables, n: NodeId, revision: nat, r: RevisionResult, q: Tables)
    requires Recorded(t, n, revision, r, q) && CursorsAgree(t, n)
    ensures var a := q.nodes[n].applied;
            a == 0 || (a in q.revisions && q.revisions[a].node == n && ResultKey(a, Applied) in q.journal)
    ensures q.nodes[n].applied <= q.nodes[n].validated
  {
  }

  /** The target's cursors are the maxima of its enlarged record sets. */
  lemma RecordedMaxima(t: Tables, n: NodeId, revision: nat, r: RevisionResult, q: Tables)
    requires Recorded(t, n, revision, r, q) && CursorsAgree(t, n)
    ensures q.nodes[n].received == MaxOf(ReportedRevisions(q, n))
    ensures q.nodes[n].validated == MaxOf(ValidatedRevisions(q, n))
  {
    RecordedSets(t, n, revision, r, q, n);
    MaxOfAdd(ReportedRevisions(t, n), revision);
    MaxOfAdd(ValidatedRevisions(t, n), revision);
    if r.state == Applied || r.state == RolledBack {
      ValidatedCovers(t, n, revision);
    }
  }

  /** A validated revision is counted by the node's validated cursor. */
  lemma ValidatedCovers(t: Tables, n: NodeId, revision: nat)
    requires revision in t.revisions && t.revisions[revision].node == n && ResultKey(revision, Validated) in t.journal
    ensures revision in ValidatedRevisions(t, n) && revision <= MaxOf(ValidatedRevisions(t, n))
  {
  }

  lemma RecordKeepsLog(t: Tables, n: NodeId, revision: nat, r: RevisionResult, q: Tables)
    requires LogInv(t) && RecordResult(t, n, revision, r) == Ok(q)
    ensures LogInv(q)
  {
    if q != t {
      RecordResultRecords(t, n, revision, r, q);
      RecordedKeepsGapless(t, n, revision, r, q);
      RecordedKeepsJournal(t, n, revision, r, q);
      forall m | m in q.nodes ensures CursorsAgree(q, m) {
        if m == n {
          assert TargetKnown(t, revision);
          RecordedKeepsTarget(t, n, revision, r, q);
        } else {
          RecordedKeepsOthers(t, n, revision, r, q, m);
        }
      }
    }
  }

  // ----- other node changes -----

  /** Steps that touch neither revisions nor journal, keep every canary, and move only `reported`. */
  ghost predicate LogUntouched(t: Tables, q: Tables) {
    && q.last == t.last && q.revisions == t.revisions && q.journal == t.journal
    && (forall n :: n in t.canaries ==> n in q.canaries)
    && (forall n :: n in t.nodes ==> n in q.nodes && SameProgress(t.nodes[n], q.nodes[n]))
    && (forall n :: n in q.nodes && n !in t.nodes ==> NoProgress(q.nodes[n]))
  }

  ghost predicate NoProgress(a: Node) {
    a.desired == a.reported == a.received == a.validated == a.applied == 0
  }

  ghost predicate SameProgress(a: Node, b: Node) {
    && a.desired == b.desired && a.received == b.received && a.validated == b.validated && a.applied == b.applied
    && b.received <= b.reported <= b.desired
  }

  /** Tables with the same nodes differ in nothing the log depends on. */
  lemma SameNodesUntouched(t: Tables, q: Tables)
    requires LogInv(t) && q.nodes == t.nodes && q.last == t.last && q.revisions == t.revisions && q.journal == t.journal
    requires forall n :: n in t.canaries ==> n in q.canaries
    ensures LogUntouched(t, q)
  {
  }

  lemma UntouchedKeepsLog(t: Tables, q: Tables)
    requires LogInv(t) && LogUntouched(t, q)
    ensures LogInv(q)
  {
    UntouchedKeepsGapless(t, q);
    forall k | k in q.journal ensures RecordSound(q, k) {
      assert RecordSound(t, k);
    }
    forall n | n in q.nodes ensures CursorsAgree(q, n) {
      if n in t.nodes {
        UntouchedKeepsCursors(t, q, n);
      } else {
        NewNodeHasNoRecords(t, q, n);
      }
    }
  }

  lemma UntouchedKeepsCursors(t: Tables, q: Tables, n: NodeId)
    requires LogUntouched(t, q) && n in t.nodes && CursorsAgree(t, n)
    ensures CursorsAgree(q, n)
  {
  }

  lemma UntouchedKeepsGapless(t: Tables, q: Tables)
    requires Gapless(t) && LogUntouched(t, q)
    ensures Gapless(q)
  {
  }

  lemma NewNodeHasNoRecords(t: Tables, q: Tables, n: NodeId)
    requires Gapless(t) && LogUntouched(t, q) && n !in t.nodes
    ensures ReportedRevisions(q, n) == {} && ValidatedRevisions(q, n) == {}
  {
  }

  lemma ReportKeepsLog(t: Tables, n: NodeId, g: Progress, version: string, q: Tables)
    requires LogInv(t) && ReportProgress(t, n, g, version) == Ok(q)
    ensures LogInv(q)
  {
    forall m | m in t.nodes ensures m in q.nodes && SameProgress(t.nodes[m], q.nodes[m]) {
      assert CursorsAgree(t, m);
    }
    UntouchedKeepsLog(t, q);
  }
}
