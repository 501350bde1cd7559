/** What every run of session steps keeps: one linear chain of refresh credentials per session with one
    record per rotation, and a revocation flag that alone decides every lifecycle gate. */
module SessionChains {
  import opened Domain
  import opened Plane
  import opened Sessions

  // ----- invariants -----

  /** The generation a secret was issued for. */
  function GenerationOf(c: Secret): Option<nat> {
    match c
    case Unknown(_, _) => None
    case Derived(_, Initial(_, _, _, _)) => Some(0)
    case Derived(_, Rotated(_, source, _, _, _)) => Some(source + 1)
  }

  /** Every rotation down to the initial secret was recorded, each from the generation before it. */
  ghost predicate Linear(refreshes: map<RefreshKey, RefreshRecord>, s: SessionId, d: DeviceId, c: Secret)
    decreases c
  {
    && c.Derived? && c.session == s && c.origin.device == d
    && (c.origin.Rotated? ==> Link(refreshes, s, c.origin) && Linear(refreshes, s, d, c.origin.request))
  }

  /** One rotation and its record. */
  ghost predicate Link(refreshes: map<RefreshKey, RefreshRecord>, s: SessionId, o: Origin)
    requires o.Rotated?
  {
    var k := RefreshKey(s, o.source, o.key);
    && k in refreshes && refreshes[k].request == o.request && refreshes[k].issuedAt == o.issuedAt
    && GenerationOf(o.request) == Some(o.source)
  }

  ghost predicate ChainOk(t: Store, s: SessionId)
    requires s in t.sessions
  {
    var row := t.sessions[s];
    && Linear(t.refreshes, s, row.device, row.current)
    && GenerationOf(row.current) == Some(row.generation)
    && row.access == row.current && row.accessExpires < row.expires
    && row.previous == if row.generation == 0 then None else Some(row.current.origin.request)
  }

  /** An unrevoked session has an active account and device and the account's credential version. */
  ghost predicate GatesOk(t: Store, s: SessionId)
    requires s in t.sessions
  {
    var row := t.sessions[s];
    && row.user in t.users && row.device in t.devices && t.devices[row.device].user == row.user
    && (!row.revoked ==>
          && t.users[row.user].status == AccountActive && t.users[row.user].version == row.version
          && t.devices[row.device].status == DeviceActive)
  }

  /** At most one record per source generation, and only for generations already left. */
  ghost predicate RecordOk(t: Store, k: RefreshKey)
    requires k in t.refreshes
  {
    && k.session in t.sessions && k.source < t.sessions[k.session].generation
    && t.refreshes[k].refreshExpires == t.sessions[k.session].expires
    && forall j :: j in t.refreshes && j.session == k.session && j.source == k.source ==> j == k
  }

  ghost predicate CreatedBy(t: Store, s: SessionId, d: DeviceId) {
    s in t.sessions && t.sessions[s].device == d
  }

  ghost predicate SessionsOk(t: Store) {
    forall s :: s in t.sessions ==> ChainOk(t, s) && GatesOk(t, s)
  }

  ghost predicate RecordsOk(t: Store) {
    forall k :: k in t.refreshes ==> RecordOk(t, k)
  }

  ghost predicate CreationsOk(t: Store) {
    && (forall k :: k in t.logins ==> CreatedBy(t, t.logins[k].session, t.logins[k].device))
    && (forall a :: a in t.activations && t.activations[a].consumed.Some? ==>
          CreatedBy(t, t.activations[a].consumed.value.session, t.activations[a].consumed.value.device))
  }

  ghost predicate Inv(t: Store) {
    SessionsOk(t) && RecordsOk(t) && CreationsOk(t)
  }

  // ----- growth -----

  /** How one session row may change: identity and expiry are fixed, the generation only grows, and a
      revoked row does not change at all. */
  ghost predicate RowGrows(a: Session, b: Session) {
    && b.user == a.user && b.device == a.device && b.version == a.version
    && b.createdAt == a.createdAt && b.expires == a.expires
    && a.generation <= b.generation
    && (a.revoked ==> b == a)
    && (a.generation == b.generation ==>
           b.current == a.current && b.access == a.access && b.accessExpires == a.accessExpires)
  }

  ghost predicate SessionsGrow(a: map<SessionId, Session>, b: map<SessionId, Session>) {
    forall s :: s in a ==> s in b && RowGrows(a[s], b[s])
  }

  ghost predicate RecordsGrow(a: map<RefreshKey, RefreshRecord>, b: map<RefreshKey, RefreshRecord>) {
    forall k :: k in a ==> k in b && b[k] == a[k]
  }

  ghost predicate LoginsGrow(a: map<Key, LoginRecord>, b: map<Key, LoginRecord>) {
    forall k :: k in a ==> k in b && b[k] == a[k]
  }

  ghost predicate ActivationsGrow(a: map<ActivationId, Activation>, b: map<ActivationId, Activation>) {
    forall k :: k in a ==> k in b && ActivationGrows(a[k], b[k])
  }

  ghost predicate UsersGrow(a: map<UserId, User>, b: map<UserId, User>) {
    forall u :: u in a ==> u in b && a[u].version <= b[u].version
  }

  ghost predicate ActivationGrows(a: Activation, b: Activation) {
    b == a.(consumed := b.consumed) && (a.consumed.Some? ==> b == a)
  }

  /** Rows, rotation records and creation records are never lost or rewritten. */
  ghost predicate Grows(t: Store, q: Store) {
    && SessionsGrow(t.sessions, q.sessions) && RecordsGrow(t.refreshes, q.refreshes)
    && LoginsGrow(t.logins, q.logins) && ActivationsGrow(t.activations, q.activations)
    && UsersGrow(t.users, q.users)
  }

  lemma GrowsReflexive(t: Store)
    ensures Grows(t, t)
  {
  }

  lemma GrowsTransitive(a: Store, b: Store, c: Store)
    requires Grows(a, b) && Grows(b, c)
    ensures Grows(a, c)
  {
  }

  lemma {:induction false} LinearGrows(a: map<RefreshKey, RefreshRecord>, b: map<RefreshKey, RefreshRecord>,
                                       s: SessionId, d: DeviceId, c: Secret)
    requires Linear(a, s, d, c)
    requires forall k :: k in a ==> k in b && b[k] == a[k]
    ensures Linear(b, s, d, c)
    decreases c
  {
    if c.origin.Rotated? {
      LinearGrows(a, b, s, d, c.origin.request);
    }
  }

  // ----- steps that end sessions -----

  /** Rows stay or become revoked, and a row left unrevoked keeps its gates. */
  ghost predicate Ends(t: Store, q: Store) {
    && q == t.(users := q.users, devices := q.devices, sessions := q.sessions)
    && q.sessions.Keys == t.sessions.Keys
    && (forall s :: s in t.sessions ==>
           q.sessions[s] == t.sessions[s] || q.sessions[s] == t.sessions[s].(revoked := true))
    && (forall u :: u in t.users ==> u in q.users && t.users[u].version <= q.users[u].version)
    && (forall d :: d in t.devices ==> d in q.devices && q.devices[d].user == t.devices[d].user)
    && (forall s :: s in t.sessions && !q.sessions[s].revoked ==> KeepsGates(t, q, t.sessions[s]))
  }

  ghost predicate KeepsGates(t: Store, q: Store, row: Session) {
    && (row.user in t.users && t.users[row.user].status == AccountActive ==>
           row.user in q.users && q.users[row.user] == t.users[row.user])
    && (row.device in t.devices && t.devices[row.device].status == DeviceActive ==>
           row.device in q.devices && q.devices[row.device] == t.devices[row.device])
  }

  lemma EndsKeeps(t: Store, q: Store)
    requires Inv(t) && Ends(t, q)
    ensures Inv(q) && Grows(t, q)
  {
    EndsKeepsSessions(t, q);
    EndsKeepsRecords(t, q);
    EndsRevokes(t, q);
    hide SessionsOk, RecordsOk, Ends, Grows;
  }

  lemma EndsKeepsSessions(t: Store, q: Store)
    requires SessionsOk(t) && Ends(t, q)
    ensures SessionsOk(q)
  {
    forall s | s in q.sessions ensures ChainOk(q, s) && GatesOk(q, s) {
      assert ChainOk(t, s) && GatesOk(t, s);
      assert q.sessions[s] == t.sessions[s] || q.sessions[s] == t.sessions[s].(revoked := true);
      hide Linear, SessionsOk;
    }
  }

  lemma EndsKeepsRecords(t: Store, q: Store)
    requires RecordsOk(t) && CreationsOk(t) && Ends(t, q)
    ensures RecordsOk(q) && CreationsOk(q)
  {
  }

  lemma EndsRevokes(t: Store, q: Store)
    requires Ends(t, q)
    ensures Grows(t, q)
  {
  }

  lemma EndSessionsEnds(t: Store, u: UserId, status: AccountStatus)
    requires u in t.users
    ensures Ends(t, EndSessions(t, u, status))
  {
  }

  lemma ResetEnds(t: Store, u: UserId)
    requires u in t.users && SessionsOk(t)
    ensures Ends(t, EndSessions(t, u, t.users[u].status).(devices := RevokeUserDevices(t.devices, u)))
  {
    var q := EndSessions(t, u, t.users[u].status).(devices := RevokeUserDevices(t.devices, u));
    forall s | s in t.sessions && !q.sessions[s].revoked ensures KeepsGates(t, q, t.sessions[s]) {
      assert GatesOk(t, s);
    }
  }

  lemma DeviceEnds(t: Store, d: DeviceId)
    requires d in t.devices
    ensures Ends(t, t.(devices := t.devices[d := t.devices[d].(status := DeviceStatus.DeviceRevoked)],
                       sessions := RevokeDeviceSessions(t.sessions, d)))
  {
  }

  lemma StatusEnds(t: Store, u: UserId, requested: AccountStatus, q: Store)
    requires SetUserStatus(t, u, requested) == Ok(q) && SessionsOk(t)
    ensures Ends(t, q)
  {
    if t.users[u].status != requested && requested != AccountActive {
      EndSessionsEnds(t, u, requested);
    }
  }

  // ----- new sessions -----

  lemma IssueKeeps(t: Store, u: UserId, d: DeviceId, s: SessionId, activation: Option<ActivationId>, digest: Digest,
                   now: Time, q: Store)
    requires Inv(t) && u in t.users && t.users[u].status == AccountActive
             && Issue(t, u, d, s, activation, digest, now) == Ok(q)
    ensures Inv(q) && Grows(t, q) && CreatedBy(q, s, d)
    ensures q.logins == t.logins && q.activations == t.activations
  {
    hide SessionsOk, RecordsOk;
    IssueKeepsSessions(t, u, d, s, activation, digest, now, q);
    IssueKeepsRecords(t, u, d, s, activation, digest, now, q);
    assert SessionsGrow(t.sessions, q.sessions);
  }

  lemma IssueKeepsSessions(t: Store, u: UserId, d: DeviceId, s: SessionId, activation: Option<ActivationId>,
                           digest: Digest, now: Time, q: Store)
    requires SessionsOk(t) && u in t.users && t.users[u].status == AccountActive
             && Issue(t, u, d, s, activation, digest, now) == Ok(q)
    ensures SessionsOk(q)
  {
  }

  lemma IssueKeepsRecords(t: Store, u: UserId, d: DeviceId, s: SessionId, activation: Option<ActivationId>,
                          digest: Digest, now: Time, q: Store)
    requires RecordsOk(t) && u in t.users && Issue(t, u, d, s, activation, digest, now) == Ok(q)
    ensures RecordsOk(q)
  {
  }

  /** The chain, gate and record invariants do not look at creation records. */
  lemma SameSessions(t: Store, q: Store)
    requires SessionsOk(t) && RecordsOk(t)
    requires q.users == t.users && q.devices == t.devices && q.sessions == t.sessions && q.refreshes == t.refreshes
    ensures SessionsOk(q) && RecordsOk(q)
  {
  }

  lemma LoginKeeps(t: Store, key: Key, digest: Digest, u: UserId, passwordOk: bool, proofOk: bool, d: DeviceId,
                   s: SessionId, now: Time)
    requires Inv(t)
    ensures var q := Login(t, key, digest, u, passwordOk, proofOk, d, s, now).store; Inv(q) && Grows(t, q)
  {
    hide Inv, Grows, Issue;
    var q := Login(t, key, digest, u, passwordOk, proofOk, d, s, now).store;
    GrowsReflexive(t);
    if q != t {
      var issued := Issue(t, u, d, s, None, digest, now).value;
      IssueKeeps(t, u, d, s, None, digest, now, issued);
      LoginRecorded(t, issued, key, LoginRecord(digest, u, d, s, AccountOf(t, u)));
    }
  }

  lemma LoginRecorded(t: Store, issued: Store, key: Key, record: LoginRecord)
    requires Inv(issued) && Grows(t, issued) && issued.logins == t.logins && key !in t.logins
    requires CreatedBy(issued, record.session, record.device)
    ensures Inv(issued.(logins := t.logins[key := record])) && Grows(t, issued.(logins := t.logins[key := record]))
  {
    hide SessionsOk, RecordsOk, SessionsGrow, RecordsGrow, UsersGrow;
    var q := issued.(logins := t.logins[key := record]);
    SameSessions(issued, q);
  }

  lemma ActivationKeeps(t: Store, a: ActivationId, secret: nat, digest: Digest, proofOk: bool, d: DeviceId,
                        s: SessionId, now: Time)
    requires Inv(t)
    ensures var q := ConsumeActivation(t, a, secret, digest, proofOk, d, s, now).store; Inv(q) && Grows(t, q)
  {
    hide Inv, Grows, Issue;
    var q := ConsumeActivation(t, a, secret, digest, proofOk, d, s, now).store;
    GrowsReflexive(t);
    if q != t {
      var row := t.activations[a];
      var issued := Issue(t, row.user, d, s, Some(a), digest, now).value;
      IssueKeeps(t, row.user, d, s, Some(a), digest, now, issued);
      ActivationRecorded(t, issued, a, row.(consumed := Some(Consumption(digest, d, s, AccountOf(t, row.user)))));
    }
  }

  lemma ActivationRecorded(t: Store, issued: Store, a: ActivationId, row: Activation)
    requires Inv(issued) && Grows(t, issued) && issued.activations == t.activations
    requires a in t.activations ==>
               t.activations[a].consumed.None? && row == t.activations[a].(consumed := row.consumed)
    requires row.consumed.Some? ==> CreatedBy(issued, row.consumed.value.session, row.consumed.value.device)
    ensures Inv(issued.(activations := t.activations[a := row])) && Grows(t,
            issued.(activations := t.activations[a := row]))
  {
    hide SessionsOk, RecordsOk, SessionsGrow, RecordsGrow, UsersGrow;
    var q := issued.(activations := t.activations[a := row]);
    SameSessions(issued, q);
  }

  // ----- refresh -----

  /** The store after a committed rotation of session `s`. */
  ghost predicate RotatedTo(t: Store, q: Store, s: SessionId, key: Key, now: Time) {
    && s in t.sessions && !t.sessions[s].revoked && t.sessions[s].user in t.users
    && now + ACCESS_LIFETIME < t.sessions[s].expires
    && RefreshKey(s, t.sessions[s].generation, key) !in t.refreshes
    && var row := t.sessions[s];
       var secret := RotatedSecret(s, row.device, row.generation, key, row.current, now);
       q == t.(sessions := t.sessions[s := Rotation(row, secret, now)],
               refreshes := t.refreshes[RefreshKey(s, row.generation, key) :=
                 RefreshRecord(row.current, AccountOf(t, row.user), now, now + ACCESS_LIFETIME, row.expires)])
  }

  lemma RefreshCases(t: Store, credential: Secret, key: Key, now: Time)
    requires Inv(t)
    ensures var q := Refresh(t, credential, key, now).store;
            || q == t
            || (credential.session in t.sessions
                && q == t.(sessions := t.sessions[credential.session :=
                   t.sessions[credential.session].(revoked := true)]))
            || (RotatedTo(t, q, credential.session, key, now) && t.sessions[credential.session].current == credential)
  {
  }

  lemma RotationKeepsChain(t: Store, q: Store, s: SessionId, key: Key, now: Time)
    requires s in t.sessions && ChainOk(t, s) && GatesOk(t, s) && RotatedTo(t, q, s, key, now)
    ensures ChainOk(q, s) && GatesOk(q, s)
  {
    var row := t.sessions[s];
    LinearGrows(t.refreshes, q.refreshes, s, row.device, row.current);
    LinearExtends(q.refreshes, s, row.device, RotatedSecret(s, row.device, row.generation, key, row.current, now));
    hide Linear;
  }

  lemma LinearExtends(refreshes: map<RefreshKey, RefreshRecord>, s: SessionId, d: DeviceId, c: Secret)
    requires c.Derived? && c.session == s && c.origin.device == d && c.origin.Rotated?
    requires Link(refreshes, s, c.origin) && Linear(refreshes, s, d, c.origin.request)
    ensures Linear(refreshes, s, d, c)
  {
  }

  lemma RotationKeepsOthers(t: Store, q: Store, s: SessionId, key: Key, now: Time, x: SessionId)
    requires x in t.sessions && ChainOk(t, x) && GatesOk(t, x) && RotatedTo(t, q, s, key, now) && x != s
    ensures x in q.sessions && ChainOk(q, x) && GatesOk(q, x)
  {
    LinearGrows(t.refreshes, q.refreshes, x, t.sessions[x].device, t.sessions[x].current);
    hide Linear;
  }

  lemma RotationKeepsRecords(t: Store, q: Store, s: SessionId, key: Key, now: Time, k: RefreshKey)
    requires RecordsOk(t) && RotatedTo(t, q, s, key, now) && k in q.refreshes
    ensures RecordOk(q, k)
  {
  }

  lemma RotationGrows(t: Store, q: Store, s: SessionId, key: Key, now: Time)
    requires RotatedTo(t, q, s, key, now)
    ensures Grows(t, q)
  {
  }

  lemma RotationKeepsSessions(t: Store, q: Store, s: SessionId, key: Key, now: Time)
    requires SessionsOk(t) && RotatedTo(t, q, s, key, now)
    ensures SessionsOk(q)
  {
    hide ChainOk, GatesOk;
    forall x | x in q.sessions ensures ChainOk(q, x) && GatesOk(q, x) {
      assert ChainOk(t, x) && GatesOk(t, x);
      if x == s {
        RotationKeepsChain(t, q, s, key, now);
      } else {
        RotationKeepsOthers(t, q, s, key, now, x);
      }
    }
  }

  lemma RotationKeeps(t: Store, q: Store, s: SessionId, key: Key, now: Time)
    requires Inv(t) && RotatedTo(t, q, s, key, now)
    ensures Inv(q) && Grows(t, q)
  {
    RotationKeepsSessions(t, q, s, key, now);
    forall k | k in q.refreshes ensures RecordOk(q, k) {
      RotationKeepsRecords(t, q, s, key, now, k);
    }
    RotationGrows(t, q, s, key, now);
    hide SessionsOk, RecordOk, Grows;
  }

  lemma RefreshKeeps(t: Store, credential: Secret, key: Key, now: Time)
    requires Inv(t)
    ensures var q := Refresh(t, credential, key, now).store; Inv(q) && Grows(t, q)
  {
    hide Inv, Grows, Refresh, RotatedTo;
    RefreshCases(t, credential, key, now);
    var q := Refresh(t, credential, key, now).store;
    GrowsReflexive(t);
    if q != t {
      if RotatedTo(t, q, credential.session, key, now) {
        RotationKeeps(t, q, credential.session, key, now);
      } else {
        assert Ends(t, q);
        EndsKeeps(t, q);
      }
    }
  }

  // ----- runs -----

  lemma InvGates(t: Store)
    requires Inv(t)
    ensures SessionsOk(t)
  {
  }

  lemma StepKeeps(t: Store, step: Step)
    requires Inv(t)
    ensures Inv(After(t, step)) && Grows(t, After(t, step))
  {
    InvGates(t);
    GrowsReflexive(t);
    hide Inv, Grows, SessionsOk, Login, ConsumeActivation, Refresh, EndSessions, Ends;
    match step {
      case DoCreateUser(u, name) =>
        if After(t, step) != t {
          assert Ends(t, After(t, step)) by { NewUserEnds(t, u, name); }
          EndsKeeps(t, After(t, step));
        }
      case DoLogin(key, digest, u, passwordOk, proofOk, d, s, now) => LoginKeeps(t, key, digest, u, passwordOk, proofOk,
          d, s, now);
      case DoCreateActivation(a, u, secret, expires) =>
        if After(t, step) != t {
          ActivationRecorded(t, t, a, Activation(u, secret, expires, None));
        }
      case DoConsumeActivation(a, secret, digest, proofOk, d, s, now) => ActivationKeeps(t, a, secret, digest, proofOk,
          d, s, now);
      case DoRefresh(credential, key, now) => RefreshKeeps(t, credential, key, now);
      case DoLogout(member, path) =>
        LogoutEnds(t, member, path);
        EndsKeeps(t, After(t, step));
      case DoRevokeDevice(d) =>
        if d in t.devices {
          DeviceEnds(t, d);
          EndsKeeps(t, After(t, step));
        }
      case DoSetPassword(u) =>
        if u in t.users {
          EndSessionsEnds(t, u, t.users[u].status);
          EndsKeeps(t, EndSessions(t, u, t.users[u].status));
        }
      case DoResetSessions(u) =>
        if u in t.users {
          ResetEnds(t, u);
          EndsKeeps(t, EndSessions(t, u, t.users[u].status).(devices := RevokeUserDevices(t.devices, u)));
        }
      case DoConsumeReset(u) =>
        if u in t.users {
          EndSessionsEnds(t, u, AccountActive);
          EndsKeeps(t, EndSessions(t, u, AccountActive));
        }
      case DoSetUserStatus(u, requested) =>
        if SetUserStatus(t, u, requested).Ok? {
          StatusEnds(t, u, requested, After(t, step));
          EndsKeeps(t, After(t, step));
        }
    }
  }

  lemma DeviceKeeps(t: Store, d: DeviceId)
    requires Inv(t)
    ensures Inv(Committed(t, RevokeDevice(t, d)))
  {
    hide Inv, Grows, Ends;
    if d in t.devices {
      DeviceEnds(t, d);
      EndsKeeps(t, Committed(t, RevokeDevice(t, d)));
    }
  }

  lemma StatusKeeps(t: Store, u: UserId, requested: AccountStatus)
    requires Inv(t)
    ensures Inv(Committed(t, SetUserStatus(t, u, requested)))
  {
    hide Inv, Grows, Ends, SetUserStatus;
    InvGates(t);
    if SetUserStatus(t, u, requested).Ok? {
      StatusEnds(t, u, requested, Committed(t, SetUserStatus(t, u, requested)));
      EndsKeeps(t, Committed(t, SetUserStatus(t, u, requested)));
    }
  }

  lemma NewUserEnds(t: Store, u: UserId, name: nat)
    requires u !in t.users
    ensures Ends(t, t.(users := t.users[u := User(AccountActive, 1, name)]))
  {
  }

  lemma LogoutEnds(t: Store, member: Member, path: DeviceId)
    ensures Ends(t, Committed(t, Logout(t, member, path)))
  {
  }

  lemma {:induction false} RunKeeps(t: Store, steps: seq<Step>)
    requires Inv(t)
    ensures Inv(Run(t, steps)) && Grows(t, Run(t, steps))
    decreases |steps|
  {
    hide Inv, Grows, After;
    if steps == [] {
      GrowsReflexive(t);
    } else {
      StepKeeps(t, steps[0]);
      RunKeeps(After(t, steps[0]), steps[1..]);
      GrowsTransitive(t, After(t, steps[0]), Run(t, steps));
    }
  }

  lemma Reachable(steps: seq<Step>)
    ensures Inv(Run(EmptyStore, steps))
  {
    RunKeeps(EmptyStore, steps);
  }
}
