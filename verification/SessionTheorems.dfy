/** Main results about member sessions, over every run. */
module SessionTheorems {
  import opened Domain
  import opened Plane
  import opened Sessions
  import opened SessionChains

  // ----- one linear chain -----

  ghost predicate Recorded(t: Store, s: SessionId, source: nat) {
    exists k :: RefreshKey(s, source, k) in t.refreshes
  }

  lemma {:induction false} ChainCovers(t: Store, s: SessionId, d: DeviceId, c: Secret, h: nat)
    requires Linear(t.refreshes, s, d, c) && GenerationOf(c).Some? && h < GenerationOf(c).value
    ensures Recorded(t, s, h)
    decreases c
  {
    assert RefreshKey(s, c.origin.source, c.origin.key) in t.refreshes;
    if h < c.origin.source {
      ChainCovers(t, s, d, c.origin.request, h);
    }
  }

  /** In every reachable state a session of generation g has exactly one rotation record for each
      generation below g and none from g on. */
  lemma OneRecordPerGeneration(steps: seq<Step>, s: SessionId, h: nat)
    requires s in Run(EmptyStore, steps).sessions
    ensures var t := Run(EmptyStore, steps);
            && (Recorded(t, s, h) <==> h < t.sessions[s].generation)
            && (forall j, k :: RefreshKey(s, h, j) in t.refreshes && RefreshKey(s, h, k) in t.refreshes ==> j == k)
  {
    Reachable(steps);
    hide Run;
    var t := Run(EmptyStore, steps);
    assert ChainOk(t, s);
    if h < t.sessions[s].generation {
      ChainCovers(t, s, t.sessions[s].device, t.sessions[s].current, h);
    }
    forall k | RefreshKey(s, h, k) in t.refreshes
      ensures h < t.sessions[s].generation
      ensures forall j :: RefreshKey(s, h, j) in t.refreshes ==> j == k
    {
      assert RecordOk(t, RefreshKey(s, h, k));
      forall j | RefreshKey(s, h, j) in t.refreshes ensures j == k {
        assert RefreshKey(s, h, j) == RefreshKey(s, h, k);
      }
    }
  }

  /** What a presented credential is worth in a state that keeps the invariant. */
  lemma CredentialGeneration(t: Store, credential: Secret)
    requires Inv(t) && credential.session in t.sessions
    ensures var row := t.sessions[credential.session];
            && (row.current == credential ==>
                   GenerationOf(credential) == Some(row.generation) && row.previous != Some(credential))
            && (row.previous == Some(credential) ==>
                  row.generation > 0 && GenerationOf(credential) == Some(row.generation - 1)
                      && row.current != credential
                  && RefreshKey(credential.session, row.generation - 1, row.current.origin.key) in t.refreshes
                  && t.refreshes[RefreshKey(credential.session, row.generation - 1, row.current.origin.key)].request
                     == credential)
            && SourceGeneration(row, credential) == (if row.current == credential || row.previous == Some(credential)
                                                     then GenerationOf(credential) else None)
  {
    assert ChainOk(t, credential.session);
  }

  /** A refresh request is determined by its credential, so the idempotency-key conflict never fires. */
  lemma RefreshNeverConflicts(t: Store, credential: Secret, key: Key, now: Time)
    requires Inv(t)
    ensures Refresh(t, credential, key, now).reply != Err(RequestConflict)
  {
  }

  /** A stored rotation is found only through the previous credential and its own key. */
  lemma RecordLookup(t: Store, credential: Secret, key: Key)
    requires Inv(t) && credential.session in t.sessions
    requires SourceGeneration(t.sessions[credential.session], credential).Some?
    ensures var row := t.sessions[credential.session];
            var index := RefreshKey(credential.session, SourceGeneration(row, credential).value, key);
            index in t.refreshes <==> row.previous == Some(credential) && key == row.current.origin.key
  {
  }

  /** Any two successful responses to the same refresh credential are identical, whatever happens in
      between, and were asked for with the same key. */
  lemma SameCredentialSameResponse(t: Store, credential: Secret, key: Key, now: Time, first: Response,
                                   more: seq<Step>, again: Key, later: Time, second: Response)
    requires Inv(t) && Refresh(t, credential, key, now).reply == Ok(first)
    requires Refresh(Run(Refresh(t, credential, key, now).store, more), credential, again, later).reply == Ok(second)
    ensures second == first && again == key
  {
    hide Run, Inv, Grows;
    var q := Refresh(t, credential, key, now).store;
    var z := Run(q, more);
    RefreshKeeps(t, credential, key, now);
    RunKeeps(q, more);
    FirstIsRecorded(t, credential, key, now, first);
    RecordsKept(q, z, RefreshKey(credential.session, GenerationOf(credential).value, key));
    SecondIsReplayed(z, credential, key, again, later, second);
  }

  lemma RecordsKept(q: Store, z: Store, k: RefreshKey)
    requires Grows(q, z) && k in q.refreshes && k.session in q.sessions
    ensures k in z.refreshes && z.refreshes[k] == q.refreshes[k]
    ensures k.session in z.sessions && z.sessions[k.session].device == q.sessions[k.session].device
  {
  }

  lemma FirstIsRecorded(t: Store, credential: Secret, key: Key, now: Time, first: Response)
    requires Inv(t) && Refresh(t, credential, key, now).reply == Ok(first)
    ensures var q := Refresh(t, credential, key, now).store;
            && GenerationOf(credential).Some? && credential.session in q.sessions
            && var k := RefreshKey(credential.session, GenerationOf(credential).value, key);
               k in q.refreshes
               && first == RecordedResponse(k.session, q.sessions[k.session].device, k.source, key, q.refreshes[k])
  {
    CredentialGeneration(t, credential);
    hide Inv;
  }

  lemma SecondIsReplayed(z: Store, credential: Secret, key: Key, again: Key, later: Time, second: Response)
    requires Inv(z) && Refresh(z, credential, again, later).reply == Ok(second)
    requires GenerationOf(credential).Some? && credential.session in z.sessions
    requires RefreshKey(credential.session, GenerationOf(credential).value, key) in z.refreshes
    ensures again == key
    ensures var k := RefreshKey(credential.session, GenerationOf(credential).value, key);
            second == RecordedResponse(k.session, z.sessions[k.session].device, k.source, key, z.refreshes[k])
  {
  }

  // ----- when a refresh succeeds -----

  /** The current credential rotates exactly when the session is not revoked, has more than an access
      lifetime left, and the clock has not gone back before the device was created. */
  lemma RefreshSucceedsExactly(t: Store, credential: Secret, key: Key, now: Time)
    requires Inv(t) && credential.session in t.sessions && t.sessions[credential.session].current == credential
    ensures var row := t.sessions[credential.session];
            row.device in t.devices &&
            (Refresh(t, credential, key, now).reply.Ok? <==>
               !row.revoked && now + ACCESS_LIFETIME < row.expires && t.devices[row.device].createdAt <= now)
  {
  }

  /** So a live session cannot be refreshed in its last fifteen minutes. */
  lemma LastQuarterHour(t: Store, credential: Secret, key: Key, now: Time)
    requires Inv(t) && credential.session in t.sessions && t.sessions[credential.session].current == credential
    requires var row := t.sessions[credential.session]; !row.revoked && now < row.expires <= now + ACCESS_LIFETIME
    ensures Refresh(t, credential, key, now) == Answer(t, Err(StoreConstraint))
  {
  }

  /** A successful rotation moves to the next generation and hands out its secrets with a fixed end. */
  lemma RotationMeaning(t: Store, credential: Secret, key: Key, now: Time, r: Response)
    requires Inv(t) && credential.session in t.sessions && t.sessions[credential.session].current == credential
    requires Refresh(t, credential, key, now).reply == Ok(r)
    ensures var row := t.sessions[credential.session];
            var q := Refresh(t, credential, key, now).store;
            credential.session in q.sessions &&
            var next := q.sessions[credential.session];
            && next.generation == row.generation + 1 && next.previous == Some(credential)
            && r.refresh == next.current == next.access == r.access && r.refresh != credential
            && r.accessExpires == next.accessExpires == now + ACCESS_LIFETIME
               && r.refreshExpires == next.expires == row.expires
            && GenerationOf(r.refresh) == Some(row.generation + 1)
  {
    CredentialGeneration(t, credential);
    RecordLookup(t, credential, key);
    hide Inv;
  }

  // ----- reuse -----

  /** Presenting the previous credential under any key but the recorded one is reuse, and only that is. */
  lemma ReuseExactly(t: Store, credential: Secret, key: Key, now: Time)
    requires Inv(t)
    ensures Refresh(t, credential, key, now).reply == Err(CredentialReused) <==>
            credential.session in t.sessions
            && var row := t.sessions[credential.session];
               row.previous == Some(credential) && row.current.Derived? && row.current.origin.Rotated?
                   && key != row.current.origin.key
  {
    if credential.session in t.sessions {
      CredentialGeneration(t, credential);
      assert ChainOk(t, credential.session);
      if SourceGeneration(t.sessions[credential.session], credential).Some? {
        RecordLookup(t, credential, key);
      }
    }
    hide Inv;
  }

  /** Reuse freezes the session: over every later run its row, and so its generation, stays as it is. */
  lemma ReuseFreezes(t: Store, credential: Secret, key: Key, now: Time, more: seq<Step>)
    requires Inv(t) && Refresh(t, credential, key, now).reply == Err(CredentialReused)
    ensures credential.session in t.sessions
    ensures var frozen := t.sessions[credential.session].(revoked := true);
            var z := Run(Refresh(t, credential, key, now).store, more);
            credential.session in z.sessions && z.sessions[credential.session] == frozen
  {
    hide Run, Inv;
    var q := Refresh(t, credential, key, now).store;
    RefreshKeeps(t, credential, key, now);
    assert q.sessions[credential.session] == t.sessions[credential.session].(revoked := true);
    RevokedStays(q, credential.session, more);
  }

  lemma RevokedStays(q: Store, s: SessionId, more: seq<Step>)
    requires Inv(q) && s in q.sessions && q.sessions[s].revoked
    ensures s in Run(q, more).sessions && Run(q, more).sessions[s] == q.sessions[s] && Inv(Run(q, more))
  {
    hide Inv;
    RunKeeps(q, more);
    assert RowGrows(q.sessions[s], Run(q, more).sessions[s]);
  }

  // ----- revocation decides -----

  /** In every reachable state the revocation flag stands for all lifecycle gates: an access token is
      accepted exactly when it is the session's newest, unexpired, and the session is not revoked. */
  lemma RevocationDecides(t: Store, access: Secret, now: Time)
    requires Inv(t)
    ensures Authenticate(t, access, now).Ok? <==>
            && access.session in t.sessions && t.sessions[access.session].access == access
            && !t.sessions[access.session].revoked && now < t.sessions[access.session].accessExpires
            && t.sessions[access.session].device in t.devices
            && t.devices[t.sessions[access.session].device].createdAt <= now
  {
  }

  /** A revoked session never authenticates and never rotates again, on any later run. */
  lemma RevokedForever(t: Store, s: SessionId, more: seq<Step>, secret: Secret, key: Key, now: Time)
    requires Inv(t) && s in t.sessions && t.sessions[s].revoked && secret.session == s
    ensures Authenticate(Run(t, more), secret, now).Err?
    ensures Refresh(Run(t, more), secret, key, now).store == Run(t, more)
  {
    hide Run, Inv;
    RevokedStays(t, s, more);
    var z := Run(t, more);
    assert z.sessions[s := z.sessions[s].(revoked := true)] == z.sessions;
  }

  /** Password changes, resets, and leaving the active state end every session of the account. */
  ghost predicate EndsAccount(t: Store, u: UserId, q: Store) {
    || SetPassword(t, u) == Ok(q) || ResetSessions(t, u) == Ok(q) || ConsumeReset(t, u) == Ok(q)
    || (SetUserStatus(t, u, AccountDisabled) == Ok(q) && q != t) || (SetUserStatus(t, u, AccountDeleted) == Ok(q)
         && q != t)
  }

  /** Sessions ended by an account step stay ended, even when the account is reactivated later. */
  lemma AccountStepEndsSessions(t: Store, u: UserId, q: Store, s: SessionId, more: seq<Step>, access: Secret, now: Time)
    requires Inv(t) && EndsAccount(t, u, q) && s in t.sessions && t.sessions[s].user == u && access.session == s
    ensures Authenticate(Run(q, more), access, now).Err?
  {
    hide Run, Inv, Authenticate, EndsAccount;
    AccountStepKeeps(t, u, q);
    AccountStepRevokes(t, u, q, s);
    RevokedForever(q, s, more, access, 0, now);
  }

  lemma AccountStepRevokes(t: Store, u: UserId, q: Store, s: SessionId)
    requires EndsAccount(t, u, q) && s in t.sessions && t.sessions[s].user == u
    ensures s in q.sessions && q.sessions[s].revoked
  {
    assert u in t.users;
    var status := if SetUserStatus(t, u, AccountDisabled) == Ok(q) then AccountDisabled
                  else if SetUserStatus(t, u, AccountDeleted) == Ok(q) then AccountDeleted else t.users[u].status;
    assert q.sessions == RevokeUserSessions(t.sessions, u);
  }

  lemma AccountStepKeeps(t: Store, u: UserId, q: Store)
    requires Inv(t) && EndsAccount(t, u, q)
    ensures Inv(q)
  {
    hide Inv, SetPassword, ResetSessions, ConsumeReset, SetUserStatus, Grows;
    if SetPassword(t, u) == Ok(q) {
      StepKeeps(t, DoSetPassword(u));
    } else if ResetSessions(t, u) == Ok(q) {
      StepKeeps(t, DoResetSessions(u));
    } else if ConsumeReset(t, u) == Ok(q) {
      StepKeeps(t, DoConsumeReset(u));
    } else if SetUserStatus(t, u, AccountDisabled) == Ok(q) {
      StepKeeps(t, DoSetUserStatus(u, AccountDisabled));
    } else {
      StepKeeps(t, DoSetUserStatus(u, AccountDeleted));
    }
  }

  /** Revoking a device ends its sessions for good. */
  lemma DeviceStepEndsSessions(t: Store, d: DeviceId, q: Store, s: SessionId, more: seq<Step>, access: Secret,
                               now: Time)
    requires Inv(t) && RevokeDevice(t, d) == Ok(q) && s in t.sessions && t.sessions[s].device == d
             && access.session == s
    ensures Authenticate(Run(q, more), access, now).Err?
  {
    hide Run, Inv, Authenticate;
    StepKeeps(t, DoRevokeDevice(d));
    assert s in q.sessions && q.sessions[s].revoked;
    RevokedForever(q, s, more, access, 0, now);
  }

  /** A rotation replaces the access token: the old one is refused on every later run. */
  lemma OldAccessTokenDies(t: Store, credential: Secret, key: Key, now: Time, more: seq<Step>, later: Time)
    requires Inv(t) && credential.session in t.sessions && t.sessions[credential.session].current == credential
    requires Refresh(t, credential, key, now).reply.Ok?
    ensures Authenticate(Run(Refresh(t, credential, key, now).store, more), t.sessions[credential.session].access,
            later).Err?
  {
    hide Run, Inv;
    var s := credential.session;
    var q := Refresh(t, credential, key, now).store;
    var r := Refresh(t, credential, key, now).reply.value;
    RotationMeaning(t, credential, key, now, r);
    RefreshKeeps(t, credential, key, now);
    RunKeeps(q, more);
    var z := Run(q, more);
    assert RowGrows(q.sessions[s], z.sessions[s]);
    CurrentIsAccess(t, s);
    CurrentIsAccess(z, s);
  }

  lemma CurrentIsAccess(t: Store, s: SessionId)
    requires Inv(t) && s in t.sessions
    ensures t.sessions[s].access == t.sessions[s].current && t.sessions[s].current.session == s
    ensures GenerationOf(t.sessions[s].current) == Some(t.sessions[s].generation)
  {
  }

  // ----- creation requests -----

  /** A login key keeps answering with the session it created. */
  lemma LoginAnswersForever(t: Store, key: Key, digest: Digest, u: UserId, passwordOk: bool, proofOk: bool, d: DeviceId,
                            s: SessionId, now: Time, r: Response, more: seq<Step>, passwordOk': bool, proofOk': bool,
                            d': DeviceId, s': SessionId, now': Time)
    requires Inv(t) && Login(t, key, digest, u, passwordOk, proofOk, d, s, now).reply == Ok(r)
    ensures var z := Run(Login(t, key, digest, u, passwordOk, proofOk, d, s, now).store, more);
            Login(z, key, digest, u, passwordOk', proofOk', d', s', now') == Answer(z, Ok(r))
  {
    hide Run, Inv;
    var q := Login(t, key, digest, u, passwordOk, proofOk, d, s, now).store;
    LoginKeeps(t, key, digest, u, passwordOk, proofOk, d, s, now);
    RunKeeps(q, more);
    var z := Run(q, more);
    assert key in q.logins && q.logins[key].session in q.sessions;
    assert RowGrows(q.sessions[q.logins[key].session], z.sessions[q.logins[key].session]);
  }

  /** A consumed activation keeps answering the same request with the session it created. */
  lemma ActivationAnswersForever(t: Store, a: ActivationId, secret: nat, digest: Digest, d: DeviceId, s: SessionId,
                                 now: Time,
                                 r: Response, more: seq<Step>, d': DeviceId, s': SessionId, now': Time)
    requires Inv(t) && ConsumeActivation(t, a, secret, digest, true, d, s, now).reply == Ok(r)
    ensures var z := Run(ConsumeActivation(t, a, secret, digest, true, d, s, now).store, more);
            ConsumeActivation(z, a, secret, digest, true, d', s', now') == Answer(z, Ok(r))
  {
    hide Run, Inv;
    var q := ConsumeActivation(t, a, secret, digest, true, d, s, now).store;
    ActivationKeeps(t, a, secret, digest, true, d, s, now);
    RunKeeps(q, more);
    var z := Run(q, more);
    assert a in q.activations && q.activations[a].consumed.Some?;
    var made := q.activations[a].consumed.value.session;
    assert RowGrows(q.sessions[made], z.sessions[made]);
  }

  /** A consumed activation refuses every other request, on every later run. */
  lemma ActivationIsUsedOnce(t: Store, a: ActivationId, secret: nat, digest: Digest, d: DeviceId, s: SessionId,
                             now: Time,
                             r: Response, more: seq<Step>, other: Digest, d': DeviceId, s': SessionId, now': Time)
    requires Inv(t) && ConsumeActivation(t, a, secret, digest, true, d, s, now).reply == Ok(r) && other != digest
    ensures var z := Run(ConsumeActivation(t, a, secret, digest, true, d, s, now).store, more);
            ConsumeActivation(z, a, secret, other, true, d', s', now') == Answer(z, Err(ActivationConsumed))
  {
    hide Run, Inv;
    var q := ConsumeActivation(t, a, secret, digest, true, d, s, now).store;
    ActivationKeeps(t, a, secret, digest, true, d, s, now);
    RunKeeps(q, more);
    var z := Run(q, more);
    assert a in q.activations && q.activations[a].consumed.Some? && q.activations[a].consumed.value.digest == digest;
    assert ActivationGrows(q.activations[a], z.activations[a]);
  }

  // ----- what a client can do with its credentials -----

  /** A new login works exactly for its fifteen minutes, and its refresh credential is the session's current one. */
  lemma LoginMeaning(t: Store, key: Key, digest: Digest, u: UserId, d: DeviceId, s: SessionId, now: Time, r: Response,
                     at: Time)
    requires Inv(t) && key !in t.logins && Login(t, key, digest, u, true, true, d, s, now).reply == Ok(r)
    ensures var q := Login(t, key, digest, u, true, true, d, s, now).store;
            && u in t.users && t.users[u].status == AccountActive && s !in t.sessions && s in q.sessions
            && q.sessions[s].user == u && q.sessions[s].generation == 0 && r.refresh == q.sessions[s].current
               && r.device == d
            && r.refreshExpires == q.sessions[s].expires == now + REFRESH_LIFETIME
               && r.accessExpires == now + ACCESS_LIFETIME
            && (Authenticate(q, r.access, at).Ok? <==> now <= at < now + ACCESS_LIFETIME)
  {
  }

  /** After a rotation the new access token works exactly for its fifteen minutes. */
  lemma RotatedTokenWorks(t: Store, credential: Secret, key: Key, now: Time, r: Response, at: Time)
    requires Inv(t) && credential.session in t.sessions && t.sessions[credential.session].current == credential
    requires Refresh(t, credential, key, now).reply == Ok(r)
    ensures var q := Refresh(t, credential, key, now).store;
            && t.sessions[credential.session].device in t.devices
            && (Authenticate(q, r.access, at).Ok? <==>
                  t.devices[t.sessions[credential.session].device].createdAt <= at < now + ACCESS_LIFETIME)
  {
    hide Inv, Authenticate;
    RotationMeaning(t, credential, key, now, r);
    RefreshKeeps(t, credential, key, now);
    RefreshCases(t, credential, key, now);
    RefreshSucceedsExactly(t, credential, key, now);
    var q := Refresh(t, credential, key, now).store;
    CurrentIsAccess(q, credential.session);
    RevocationDecides(q, r.access, at);
    hide Refresh;
  }
}
