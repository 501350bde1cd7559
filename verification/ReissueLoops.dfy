/** Set-at-a-time credential changes done one assignment at a time: each loop of the account operations
    reaches the same table as the single step that describes it. */
module ReissueLoops {
  import opened Domain
  import opened DesiredState
  import opened Plane
  import opened Credentials

  /** Revoke the assignment's credentials and issue the next version. */
  ghost function ReissueOne(cs: CredentialTable, u: UserId, n: NodeId, id: CredentialId): CredentialTable {
    var revoked := RevokePairs(cs, u, {n});
    revoked[id := Credential(u, n, NextVersion(revoked, u, n), Pending)]
  }

  /** Revoke and issue on several assignments at once. */
  ghost function Reissue(cs: CredentialTable, u: UserId, ns: set<NodeId>, ids: NodeId -> CredentialId): CredentialTable
    requires FreshFor(cs, ns, ids)
  {
    IssuePairs(RevokePairs(cs, u, ns), u, ns, ids)
  }

  lemma ReissueNothing(cs: CredentialTable, u: UserId, ids: NodeId -> CredentialId)
    ensures FreshFor(cs, {}, ids) && Reissue(cs, u, {}, ids) == cs
  {
  }

  /** The row a reissue leaves under an identifier. */
  lemma ReissuedRow(cs: CredentialTable, u: UserId, ns: set<NodeId>, ids: NodeId -> CredentialId, c: CredentialId)
    requires FreshFor(cs, ns, ids)
    ensures c in cs ==> c in Reissue(cs, u, ns, ids)
                        && Reissue(cs, u, ns, ids)[c] == if Of(cs[c], u, ns) then cs[c].(status := Revoked) else cs[c]
    ensures c !in cs && c in Reissue(cs, u, ns, ids) ==> exists n :: n in ns && c == ids(n)
  {
  }

  lemma ReissuedNew(cs: CredentialTable, u: UserId, ns: set<NodeId>, ids: NodeId -> CredentialId, n: NodeId)
    requires FreshFor(cs, ns, ids) && n in ns
    ensures ids(n) in Reissue(cs, u, ns, ids)
    ensures Reissue(cs, u, ns, ids)[ids(n)] == Credential(u, n, NextVersion(cs, u, n), Pending)
  {
    SameVersions(cs, RevokePairs(cs, u, ns), u, n);
  }

  /** The next version depends only on the identities of the assignment's credentials. */
  lemma SameVersions(cs: CredentialTable, ds: CredentialTable, u: UserId, n: NodeId)
    requires forall c :: c in cs && cs[c].user == u && cs[c].node == n ==> c in ds && SameIdentity(cs[c], ds[c])
    requires forall c :: c in ds && ds[c].user == u && ds[c].node == n ==> c in cs && SameIdentity(cs[c], ds[c])
    ensures NextVersion(ds, u, n) == NextVersion(cs, u, n)
  {
    assert Versions(ds, u, n) == Versions(cs, u, n) by {
      forall v ensures v in Versions(ds, u, n) <==> v in Versions(cs, u, n) {
        if v in Versions(ds, u, n) {
          var c :| c in ds && ds[c].user == u && ds[c].node == n && ds[c].version == v;
          assert cs[c].version == v;
        }
        if v in Versions(cs, u, n) {
          var c :| c in cs && cs[c].user == u && cs[c].node == n && cs[c].version == v;
          assert ds[c].version == v;
        }
      }
    }
  }

  /** The generated identifiers stay fresh one node at a time. */
  lemma FreshGrows(cs: CredentialTable, u: UserId, done: set<NodeId>, n: NodeId, ids: NodeId -> CredentialId)
    requires FreshFor(cs, done, ids) && n !in done
    ensures FreshFor(cs, done + {n}, ids) <==> ids(n) !in Reissue(cs, u, done, ids)
  {
  }

  lemma ReissueOneRows(cs: CredentialTable, u: UserId, n: NodeId, id: CredentialId)
    requires id !in cs
    ensures var after := ReissueOne(cs, u, n, id);
            && (forall c :: c in after <==> c in cs || c == id)
            && (forall c :: c in cs ==> after[c] == if Of(cs[c], u, {n}) then cs[c].(status := Revoked) else cs[c])
            && after[id] == Credential(u, n, NextVersion(cs, u, n), Pending)
  {
    SameVersions(cs, RevokePairs(cs, u, {n}), u, n);
  }

  /** One more iteration. */
  lemma ReissueNext(cs: CredentialTable, u: UserId, done: set<NodeId>, n: NodeId, ids: NodeId -> CredentialId)
    requires FreshFor(cs, done + {n}, ids) && FreshFor(cs, done, ids) && n !in done
    ensures ids(n) !in Reissue(cs, u, done, ids)
    ensures ReissueOne(Reissue(cs, u, done, ids), u, n, ids(n)) == Reissue(cs, u, done + {n}, ids)
  {
    hide Reissue, ReissueOne, FreshFor, NextVersion;
    FreshGrows(cs, u, done, n, ids);
    var one := ReissueOne(Reissue(cs, u, done, ids), u, n, ids(n));
    var all := Reissue(cs, u, done + {n}, ids);
    forall c ensures (c in one <==> c in all) && (c in one ==> one[c] == all[c]) {
      ReissueNextRow(cs, u, done, n, ids, c);
    }
  }

  lemma ReissueNextRow(cs: CredentialTable, u: UserId, done: set<NodeId>, n: NodeId, ids: NodeId -> CredentialId,
                       c: CredentialId)
    requires FreshFor(cs, done + {n}, ids) && FreshFor(cs, done, ids) && n !in done
    ensures var one := ReissueOne(Reissue(cs, u, done, ids), u, n, ids(n));
            var all := Reissue(cs, u, done + {n}, ids);
            (c in one <==> c in all) && (c in one ==> one[c] == all[c])
  {
    var before := Reissue(cs, u, done, ids);
    FreshGrows(cs, u, done, n, ids);
    ReissueKeepsVersions(cs, u, done, n, ids);
    ReissueOneRows(before, u, n, ids(n));
    ReissuedRow(cs, u, done, ids, c);
    ReissuedRow(cs, u, done + {n}, ids, c);
    ReissuedNew(cs, u, done + {n}, ids, n);
    hide Reissue, ReissueOne, NextVersion;
    if c !in cs && c in before {
      var m :| m in done && c == ids(m);
      ReissuedNew(cs, u, done, ids, m);
      ReissuedNew(cs, u, done + {n}, ids, m);
    }
  }

  lemma ReissueKeepsVersions(cs: CredentialTable, u: UserId, done: set<NodeId>, n: NodeId, ids: NodeId -> CredentialId)
    requires FreshFor(cs, done, ids) && n !in done
    ensures NextVersion(Reissue(cs, u, done, ids), u, n) == NextVersion(cs, u, n)
  {
    var after := Reissue(cs, u, done, ids);
    forall c ensures c in cs ==> c in after && SameIdentity(cs[c], after[c])
             ensures c in after && c !in cs ==> after[c].node != n
    {
      ReissuedRow(cs, u, done, ids, c);
      if c in after && c !in cs {
        var m :| m in done && c == ids(m);
        ReissuedNew(cs, u, done, ids, m);
      }
    }
    hide Reissue;
    SameVersions(cs, after, u, n);
  }

  /** Retiring one more assignment. */
  lemma RetireNext(cs: CredentialTable, u: UserId, done: set<NodeId>, n: NodeId)
    ensures RetirePairs(RetirePairs(cs, u, done), u, {n}) == RetirePairs(cs, u, done + {n})
  {
  }

  lemma EnableNext(a: AssignmentTable, u: UserId, enable: set<NodeId>, n: NodeId)
    ensures Reassign(a, u, enable, {})[Pair(u, n) := Enabled] == Reassign(a, u, enable + {n}, {})
  {
  }

  lemma DisableNext(a: AssignmentTable, u: UserId, enable: set<NodeId>, disable: set<NodeId>, n: NodeId)
    ensures Reassign(a, u, enable, disable)[Pair(u, n) := Disabled] == Reassign(a, u, enable, disable + {n})
  {
  }

  // ----- the enabling loop -----

  predicate NeedsEnabling(t: Tables, u: UserId, n: NodeId) {
    Pair(u, n) !in t.assignments || t.assignments[Pair(u, n)] == Disabled
  }

  lemma ToEnableNext(t: Tables, u: UserId, done: set<NodeId>, n: NodeId)
    ensures ToEnable(t, u, done + {n}) == if NeedsEnabling(t, u, n) then ToEnable(t, u, done) + {n}
            else ToEnable(t, u, done)
    ensures ToEnable(t, u, {}) == {}
    ensures n !in done ==> n !in ToEnable(t, u, done)
  {
  }

  /** Foreign keys: without an assignment there is nothing to revoke. */
  lemma NothingToRevoke(t: Tables, u: UserId, done: set<NodeId>, ids: NodeId -> CredentialId, n: NodeId)
    requires References(t) && Pair(u, n) !in t.assignments && n !in done && FreshFor(t.credentials, done, ids)
    ensures RevokePairs(Reissue(t.credentials, u, done, ids), u, {n}) == Reissue(t.credentials, u, done, ids)
  {
  }

  /** Progress of the enabling loop: `done` requested nodes have been handled. */
  ghost predicate Enabling(t: Tables, u: UserId, done: set<NodeId>, changed: set<NodeId>, ids: NodeId -> CredentialId,
                           a: AssignmentTable, cs: CredentialTable)
  {
    && changed == ToEnable(t, u, done) && FreshFor(t.credentials, changed, ids)
    && cs == Reissue(t.credentials, u, changed, ids)
    && a == Reassign(t.assignments, u, changed, {})
    && forall n :: n in done ==> !(Pair(u, n) in t.assignments && t.assignments[Pair(u, n)] == Deleted)
  }

  lemma EnablingStarts(t: Tables, u: UserId, ids: NodeId -> CredentialId)
    ensures Enabling(t, u, {}, {}, ids, t.assignments, t.credentials)
  {
    ReissueNothing(t.credentials, u, ids);
    assert Reassign(t.assignments, u, {}, {}) == t.assignments;
  }

  /** A node that is already enabled needs nothing. */
  lemma EnablingSkips(t: Tables, u: UserId, done: set<NodeId>, changed: set<NodeId>, ids: NodeId -> CredentialId,
                      a: AssignmentTable, cs: CredentialTable, n: NodeId)
    requires Enabling(t, u, done, changed, ids, a, cs) && Pair(u, n) in t.assignments
             && t.assignments[Pair(u, n)] == Enabled
    ensures Enabling(t, u, done + {n}, changed, ids, a, cs)
  {
  }

  /** A node to enable: revoke what it had, issue, mark enabled. */
  lemma EnablingNext(t: Tables, u: UserId, done: set<NodeId>, changed: set<NodeId>, ids: NodeId -> CredentialId,
                     a: AssignmentTable, cs: CredentialTable, n: NodeId)
    requires Enabling(t, u, done, changed, ids, a, cs) && NeedsEnabling(t, u, n) && n !in done
    ensures changed == ToEnable(t, u, done) && (ids(n) in cs <==> !FreshFor(t.credentials, changed + {n}, ids))
    ensures ids(n) !in cs ==>
              Enabling(t, u, done + {n}, changed + {n}, ids, a[Pair(u, n) := Enabled], ReissueOne(cs, u, n, ids(n)))
  {
    hide Reissue, Reassign, ReissueOne, FreshFor;
    ToEnableNext(t, u, done, n);
    FreshGrows(t.credentials, u, changed, n, ids);
    EnableNext(t.assignments, u, changed, n);
    if ids(n) !in cs {
      ReissueNext(t.credentials, u, changed, n, ids);
    }
  }

  lemma EnablingUnassigned(t: Tables, u: UserId, done: set<NodeId>, changed: set<NodeId>, ids: NodeId -> CredentialId,
                           a: AssignmentTable, cs: CredentialTable, n: NodeId)
    requires Enabling(t, u, done, changed, ids, a, cs) && References(t) && Pair(u, n) !in t.assignments && n !in done
    ensures RevokePairs(cs, u, {n}) == cs
  {
    hide Reissue;
    NothingToRevoke(t, u, changed, ids, n);
  }

  lemma RevokedDomain(cs: CredentialTable, u: UserId, n: NodeId)
    ensures RevokePairs(cs, u, {n}).Keys == cs.Keys
  {
  }

  lemma FreshFailure(cs: CredentialTable, some: set<NodeId>, all: set<NodeId>, ids: NodeId -> CredentialId)
    requires some <= all && !FreshFor(cs, some, ids)
    ensures !FreshFor(cs, all, ids)
  {
  }

  /** The loop handles the nodes in ascending order. */
  ghost predicate Ascending(requested: set<NodeId>, done: set<NodeId>, n: NodeId) {
    && done <= requested && n in requested && n !in done
    && (forall d :: d in done ==> d < n) && (forall k :: k in requested && k !in done ==> n <= k)
  }

  ghost predicate InOrder(requested: set<NodeId>, todo: set<NodeId>) {
    todo <= requested && forall d, k :: d in requested - todo && k in todo ==> d < k
  }

  lemma FirstIsNext(requested: set<NodeId>, todo: set<NodeId>, n: NodeId)
    requires InOrder(requested, todo) && n in todo && forall k :: k in todo ==> n <= k
    ensures Ascending(requested, requested - todo, n) && InOrder(requested, todo - {n})
    ensures requested - (todo - {n}) == requested - todo + {n}
  {
    forall d, k | d in requested - (todo - {n}) && k in todo - {n} ensures d < k {
      assert d == n || d in requested - todo;
    }
  }

  /** It stops at a deleted assignment. */
  lemma EnablingMeetsDeleted(t: Tables, u: UserId, requested: set<NodeId>, done: set<NodeId>, changed: set<NodeId>,
                             ids: NodeId -> CredentialId, a: AssignmentTable, cs: CredentialTable, n: NodeId)
    requires Enabling(t, u, done, changed, ids, a, cs) && Ascending(requested, done, n)
    requires Pair(u, n) in t.assignments && t.assignments[Pair(u, n)] == Deleted
    ensures requested * NodesWith(t, u, Deleted) != {} && EnablingError(t, u, requested, ids) == AssignmentConflict(n)
  {
    hide Reissue, Reassign, FreshFor;
    var deleted := requested * NodesWith(t, u, Deleted);
    assert Pair(u, n).node in NodesWith(t, u, Deleted);
    assert n in deleted;
    forall k | k in deleted ensures n <= k {
      assert Pair(u, k) in t.assignments && t.assignments[Pair(u, k)] == Deleted;
    }
    assert Least(deleted) == n;
    assert Below(ToEnable(t, u, requested), n) == changed by {
      forall k ensures k in Below(ToEnable(t, u, requested), n) <==> k in ToEnable(t, u, done) {
        assert k in requested && k < n <==> k in done;
      }
    }
  }

  /** It stops at a colliding identifier. */
  lemma EnablingFails(t: Tables, u: UserId, requested: set<NodeId>, done: set<NodeId>, changed: set<NodeId>,
                      ids: NodeId -> CredentialId, a: AssignmentTable, cs: CredentialTable, n: NodeId)
    requires Enabling(t, u, done, changed, ids, a, cs) && Ascending(requested, done, n) && NeedsEnabling(t, u, n)
    requires !FreshFor(t.credentials, changed + {n}, ids)
    ensures !FreshFor(t.credentials, ToEnable(t, u, requested), ids)
    ensures EnablingError(t, u, requested, ids) == ConstraintViolation
  {
    hide Reissue, Reassign, FreshFor;
    var deleted := requested * NodesWith(t, u, Deleted);
    FreshFailure(t.credentials, changed + {n}, ToEnable(t, u, requested), ids);
    if deleted != {} {
      var k := Least(deleted);
      assert Pair(u, k) in t.assignments && t.assignments[Pair(u, k)] == Deleted;
      assert k !in done && k != n;
      FreshFailure(t.credentials, changed + {n}, Below(ToEnable(t, u, requested), k), ids);
    }
  }

  lemma EnablingEnds(t: Tables, u: UserId, requested: set<NodeId>, changed: set<NodeId>, ids: NodeId -> CredentialId,
                     a: AssignmentTable, cs: CredentialTable)
    requires Enabling(t, u, requested, changed, ids, a, cs)
    ensures changed == ToEnable(t, u, requested) && FreshFor(t.credentials, changed, ids)
    ensures cs == Reissue(t.credentials, u, changed, ids) && a == Reassign(t.assignments, u, changed, {})
    ensures requested * NodesWith(t, u, Deleted) == {}
  {
  }

  /** The two loops of a replacement together reach the tables of the replacement step. */
  lemma ReplacedIsReissued(t: Tables, u: UserId, enable: set<NodeId>, disable: set<NodeId>, ids: NodeId -> CredentialId)
    requires FreshFor(t.credentials, enable, ids)
    ensures ReplacedTables(t, u, enable, disable, ids)
            == t.(assignments := Reassign(t.assignments, u, enable, disable),
                  credentials := RetirePairs(Reissue(t.credentials, u, enable, ids), u, disable))
  {
  }
}
