/** The row lists handled while publishing: what validation of a document's user list says about the
    set of credentials it was compiled from. */
module DocumentRows {
  import opened Domain
  import opened Ordering
  import opened DesiredState
  import opened Plane

  /** No user and no credential occurs twice. */
  ghost predicate DistinctBag(m: multiset<DesiredUser>) {
    && (forall x :: x in m ==> m[x] == 1)
    && (forall x, y :: x in m && y in m && x != y ==> x.user != y.user && x.credential != y.credential)
  }

  lemma {:induction false} RepeatedElement(s: seq<DesiredUser>, x: DesiredUser) returns (i: nat, j: nat)
    requires multiset(s)[x] >= 2
    ensures i < j < |s| && s[i] == x && s[j] == x
  {
    var last := |s| - 1;
    assert s == s[..last] + [s[last]];
    if s[last] != x {
      i, j := RepeatedElement(s[..last], x);
    } else {
      assert x in multiset(s[..last]);
      i :| 0 <= i < last && s[..last][i] == x;
      j := last;
    }
  }

  lemma DistinctIdentitiesIsDistinctBag(s: seq<DesiredUser>)
    ensures DistinctIdentities(s) <==> DistinctBag(multiset(s))
  {
    if DistinctIdentities(s) {
      forall x | x in multiset(s) ensures multiset(s)[x] == 1 {
        if multiset(s)[x] >= 2 {
          var i, j := RepeatedElement(s, x);
          assert false;
        }
      }
      forall x, y | x in multiset(s) && y in multiset(s) && x != y
        ensures x.user != y.user && x.credential != y.credential
      {
        assert x in s && y in s;
      }
    }
    if DistinctBag(multiset(s)) {
      forall i, j | 0 <= i < j < |s| ensures s[i].user != s[j].user && s[i].credential != s[j].credential {
        assert s[i] in multiset(s) && s[j] in multiset(s);
        assert s == s[..j] + s[j..];
        assert s[i] in s[..j] && s[j] in s[j..];
        assert multiset(s)[s[j]] == multiset(s[..j])[s[j]] + multiset(s[j..])[s[j]];
        assert s[i] != s[j];
      }
    }
  }

  /** The rows carry each member once. */
  lemma {:induction false} MemberUsersCount(t: Tables, members: set<CredentialId>)
    requires members <= t.credentials.Keys
    ensures |MemberUsers(t, members)| == |members|
  {
    if members != {} {
      var c :| c in members;
      MemberUsersCount(t, members - {c});
      MemberUsersGrow(t, members - {c}, c);
      assert members - {c} + {c} == members;
    }
  }

  lemma MemberUsersGrow(t: Tables, members: set<CredentialId>, c: CredentialId)
    requires members <= t.credentials.Keys && c in t.credentials && c !in members
    ensures MemberUsers(t, members + {c}) == MemberUsers(t, members) + {DesiredUser(t.credentials[c].user, c)}
    ensures DesiredUser(t.credentials[c].user, c) !in MemberUsers(t, members)
  {
  }

  lemma DuplicateIsMonotone(t: Tables, some: set<CredentialId>, all: set<CredentialId>)
    requires some <= all <= t.credentials.Keys && DuplicateUser(t, some)
    ensures DuplicateUser(t, all)
  {
  }

  /** Rows compiled so far, and the users seen in them, for the members already read. */
  ghost predicate Collected(t: Tables, done: set<CredentialId>, users: seq<DesiredUser>, seen: set<UserId>) {
    && done <= t.credentials.Keys
    && multiset(users) == multiset(MemberUsers(t, done))
    && seen == (set c | c in done :: t.credentials[c].user)
    && !DuplicateUser(t, done)
  }

  lemma CollectNext(t: Tables, done: set<CredentialId>, users: seq<DesiredUser>, seen: set<UserId>, c: CredentialId)
    requires Collected(t, done, users, seen) && c in t.credentials && c !in done
    ensures t.credentials[c].user in seen ==> DuplicateUser(t, done + {c})
    ensures t.credentials[c].user !in seen ==>
              Collected(t, done + {c}, users + [DesiredUser(t.credentials[c].user, c)], seen + {t.credentials[c].user})
  {
  }

  lemma CollectedAll(t: Tables, members: set<CredentialId>, todo: set<CredentialId>, users: seq<DesiredUser>,
                     seen: set<UserId>)
    requires todo == {} && Collected(t, members - todo, users, seen)
    ensures members <= t.credentials.Keys && multiset(users) == multiset(MemberUsers(t, members))
            && !DuplicateUser(t, members)
  {
  }

  /** Validation of the sorted user list accepts exactly the acceptable member sets. */
  lemma RowsAcceptable(t: Tables, members: set<CredentialId>, rows: seq<DesiredUser>, canary: DesiredUser)
    requires members <= t.credentials.Keys && !DuplicateUser(t, members)
    requires multiset(rows) == multiset(MemberUsers(t, members))
    ensures |Sort(UserLeq, rows + [canary])| == |members| + 1
    ensures DistinctIdentities(Sort(UserLeq, rows + [canary])) <==>
            canary.credential !in members && forall c :: c in members ==> t.credentials[c].user != canary.user
  {
    var sorted := Sort(UserLeq, rows + [canary]);
    UserOrder();
    SortSorts(UserLeq, rows + [canary]);
    DistinctIdentitiesIsDistinctBag(sorted);
    MemberUsersCount(t, members);
    RowsBag(t, members, canary);
    var bag := multiset(MemberUsers(t, members)) + multiset{canary};
    assert multiset(sorted) == bag;
    assert |sorted| == |multiset(sorted)|;
    assert |multiset(MemberUsers(t, members))| == |MemberUsers(t, members)|;
  }

  lemma RowsBag(t: Tables, members: set<CredentialId>, canary: DesiredUser)
    requires members <= t.credentials.Keys && !DuplicateUser(t, members)
    ensures DistinctBag(multiset(MemberUsers(t, members)) + multiset{canary}) <==>
            canary.credential !in members && forall c :: c in members ==> t.credentials[c].user != canary.user
  {
    var users := MemberUsers(t, members);
    var bag := multiset(users) + multiset{canary};
    forall c | c in members ensures DesiredUser(t.credentials[c].user, c) in users {
    }
    forall x | x in users ensures x.credential in members && t.credentials[x.credential].user == x.user {
    }
    if DistinctBag(bag) {
      forall c | c in members ensures c != canary.credential && t.credentials[c].user != canary.user {
        var x := DesiredUser(t.credentials[c].user, c);
        assert x in bag && canary in bag;
        assert x == canary ==> bag[x] == 2;
      }
    }
    if canary.credential !in members && forall c :: c in members ==> t.credentials[c].user != canary.user {
      assert canary !in users;
      forall x | x in bag ensures bag[x] == 1 {
      }
      forall x, y | x in bag && y in bag && x != y ensures x.user != y.user && x.credential != y.credential {
        assert (x in users || x == canary) && (y in users || y == canary);
      }
    }
  }

  /** The stored user list of a valid document is the canonical list of its members and canary. */
  lemma RowsCanonical(t: Tables, members: set<CredentialId>, rows: seq<DesiredUser>, canary: DesiredUser)
    requires members <= t.credentials.Keys && canary.credential !in members
    requires multiset(rows) == multiset(MemberUsers(t, members))
    ensures Sort(UserLeq, rows + [canary]) == CanonicalUsers(MemberUsers(t, members) + {canary})
  {
    assert canary !in MemberUsers(t, members);
    assert multiset(rows + [canary]) == multiset(MemberUsers(t, members) + {canary});
    CanonicalUsersOfRows(rows + [canary], MemberUsers(t, members) + {canary});
  }

  /** The snapshot collected from the rows is the member set. */
  lemma RowsMembers(t: Tables, members: set<CredentialId>, rows: seq<DesiredUser>)
    requires members <= t.credentials.Keys && multiset(rows) == multiset(MemberUsers(t, members))
    ensures (set x | x in rows :: x.credential) == members
  {
    forall c | c in members ensures c in (set x | x in rows :: x.credential) {
      var x := DesiredUser(t.credentials[c].user, c);
      assert x in MemberUsers(t, members);
      assert x in multiset(rows);
    }
    forall x | x in rows ensures x.credential in members {
      assert x in multiset(rows);
    }
  }

  /** Comparing a stored canonical list with the sorted rows compares the underlying sets; a canary that
      is also a member row would occur twice and so never equals a stored list. */
  lemma CurrentUsers(t: Tables, members: set<CredentialId>, rows: seq<DesiredUser>, canary: DesiredUser,
                     stored: set<DesiredUser>)
    requires members <= t.credentials.Keys && multiset(rows) == multiset(MemberUsers(t, members))
    ensures CanonicalUsers(stored) == Sort(UserLeq, rows + [canary]) <==>
            canary !in MemberUsers(t, members) && CanonicalUsers(stored)
                == CanonicalUsers(MemberUsers(t, members) + {canary})
  {
    var users := MemberUsers(t, members);
    UserOrder();
    if canary !in users {
      assert multiset(rows + [canary]) == multiset(users + {canary});
      CanonicalUsersOfRows(rows + [canary], users + {canary});
    } else {
      SortSorts(UserLeq, rows + [canary]);
      SortSorts(UserLeq, Enumerate(stored));
      assert multiset(rows + [canary])[canary] == 2;
      assert multiset(stored)[canary] <= 1;
    }
  }
}
