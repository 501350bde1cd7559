/** The session tables as the server changes them, one statement after another. */
module SessionStore {
  import opened Domain
  import opened Plane
  import opened Sessions
  import opened SessionChains

  datatype Acknowledged = Done

  type Reply = Outcome<Acknowledged, SessionError>

  /** The same error and nothing changed, or the same tables. */
  ghost predicate Agrees(spec: Outcome<Store, SessionError>, before: Store, after: Store, r: Reply) {
    match spec
    case Ok(t) => r == Ok(Done) && after == t
    case Err(e) => r == Err(e) && after == before
  }

  class SessionStore {
    var users: map<UserId, User>
    var devices: map<DeviceId, Device>
    var sessions: map<SessionId, Session>
    var refreshes: map<RefreshKey, RefreshRecord>
    var logins: map<Key, LoginRecord>
    var activations: map<ActivationId, Activation>

    function View(): Store
      reads this
    {
      Store(users, devices, sessions, refreshes, logins, activations)
    }

    ghost predicate Valid()
      reads this
    {
      Inv(View())
    }

    constructor ()
      ensures Valid() && View() == EmptyStore
    {
      users, devices, sessions := map[], map[], map[];
      refreshes, logins, activations := map[], map[], map[];
    }

    /** Insert the device and its first session. */
    method IssueInitialSession(u: UserId, d: DeviceId, s: SessionId, activation: Option<ActivationId>, digest: Digest,
                               now: Time)
      returns (issued: bool)
      requires u in users
      modifies this`devices, this`sessions
      ensures var spec := Issue(old(View()), u, d, s, activation, digest, now);
              issued == spec.Ok? && View() == Sessions.Committed(old(View()), spec)
    {
      if d in devices || s in sessions {
        return false;
      }
      devices := devices[d := Device(u, DeviceActive, now)];
      var secret := InitialSecret(s, d, activation, digest, now);
      sessions := sessions[s := Session(u, d, 0, secret, None, secret, now + ACCESS_LIFETIME, users[u].version,
                                        now, now + REFRESH_LIFETIME, false)];
      return true;
    }

    method CreateMemberSession(key: Key, digest: Digest, u: UserId, passwordOk: bool, proofOk: bool,
                               d: DeviceId, s: SessionId, now: Time) returns (r: Outcome<Response, SessionError>)
      requires Valid()
      modifies this
      ensures Valid() && Answer(View(), r) == Login(old(View()), key, digest, u, passwordOk, proofOk, d, s, now)
    {
      hide Inv, Grows;
      LoginKeeps(View(), key, digest, u, passwordOk, proofOk, d, s, now);
      if key in logins {
        var record := logins[key];
        if record.digest != digest {
          return Err(RequestConflict);
        }
        if record.session !in sessions {
          return Err(StoreConstraint);
        }
        return Ok(InitialResponse(View(), record.account, record.device, record.session, None, digest));
      }
      if u !in users || users[u].status != AccountActive || !passwordOk {
        return Err(AuthenticationFailed);
      }
      if !proofOk {
        return Err(InvalidProof);
      }
      var account := AccountOf(View(), u);
      var issued := IssueInitialSession(u, d, s, None, digest, now);
      if !issued {
        return Err(StoreConstraint);
      }
      var response := InitialResponse(View(), account, d, s, None, digest);
      logins := logins[key := LoginRecord(digest, u, d, s, account)];
      return Ok(response);
    }

    method RefreshMemberSession(credential: Secret, key: Key, now: Time) returns (r: Outcome<Response, SessionError>)
      requires Valid()
      modifies this
      ensures Valid() && Answer(View(), r) == Refresh(old(View()), credential, key, now)
    {
      hide Inv, Grows, Refresh;
      RefreshKeeps(View(), credential, key, now);
      r := RefreshInTransaction(credential, key, now);
    }

    /** Replay a recorded rotation, refuse and revoke on reuse, or rotate. */
    method RefreshInTransaction(credential: Secret, key: Key, now: Time) returns (r: Outcome<Response, SessionError>)
      modifies this`sessions, this`refreshes
      ensures Answer(View(), r) == Refresh(old(View()), credential, key, now)
    {
      var s := credential.session;
      if s !in sessions {
        return Err(AuthenticationFailed);
      }
      var row := sessions[s];
      var currentMatches := row.current == credential;
      var previousMatches := row.previous == Some(credential);
      var source := row.generation;
      if !currentMatches {
        if !previousMatches || row.generation == 0 {
          return Err(AuthenticationFailed);
        }
        source := row.generation - 1;
      }
      var index := RefreshKey(s, source, key);
      if index in refreshes {
        if refreshes[index].request != credential {
          return Err(RequestConflict);
        }
        return Ok(RecordedResponse(s, row.device, source, key, refreshes[index]));
      }
      if previousMatches {
        sessions := sessions[s := row.(revoked := true)];
        return Err(CredentialReused);
      }
      if !Admitted(View(), row, now) {
        return Err(AuthenticationFailed);
      }
      var account := AccountOf(View(), row.user);
      var secret := RotatedSecret(s, row.device, source, key, credential, now);
      if row.expires <= now + ACCESS_LIFETIME || now < devices[row.device].createdAt {
        return Err(StoreConstraint);
      }
      sessions := sessions[s := row.(generation := row.generation + 1, previous := Some(row.current), current := secret,
                                     access := secret, accessExpires := now + ACCESS_LIFETIME)];
      var record := RefreshRecord(credential, account, now, now + ACCESS_LIFETIME, row.expires);
      refreshes := refreshes[index := record];
      return Ok(RecordedResponse(s, row.device, source, key, record));
    }

    method AuthenticateMember(access: Secret, now: Time) returns (r: Outcome<Member, SessionError>)
      ensures r == Authenticate(View(), access, now)
    {
      var s := access.session;
      if s !in sessions {
        return Err(AuthenticationFailed);
      }
      var row := sessions[s];
      if row.access != access || row.accessExpires <= now || !Admitted(View(), row, now) {
        return Err(AuthenticationFailed);
      }
      if now < devices[row.device].createdAt {
        return Err(StoreConstraint);
      }
      return Ok(Member(row.user, row.device, s));
    }

    method RevokeMemberDevice(d: DeviceId) returns (r: Reply)
      requires Valid()
      modifies this
      ensures Valid() && Agrees(RevokeDevice(old(View()), d), old(View()), View(), r)
    {
      hide Inv, RevokeDeviceSessions;
      DeviceKeeps(View(), d);
      if d !in devices {
        return Err(UnknownDevice);
      }
      devices := devices[d := devices[d].(status := DeviceStatus.DeviceRevoked)];
      sessions := RevokeDeviceSessions(sessions, d);
      return Ok(Done);
    }

    /** Session side of an account status change. */
    method SetAccountStatus(u: UserId, requested: AccountStatus) returns (r: Reply)
      requires Valid()
      modifies this
      ensures Valid() && Agrees(SetUserStatus(old(View()), u, requested), old(View()), View(), r)
    {
      hide Inv, RevokeUserSessions;
      StatusKeeps(View(), u, requested);
      if u !in users {
        return Err(UnknownAccount);
      }
      if users[u].status == AccountDeleted && requested != AccountDeleted {
        return Err(LifecycleConflict);
      }
      if users[u].status == requested {
        return Ok(Done);
      }
      users := users[u := users[u].(status := requested)];
      if requested != AccountActive {
        users := users[u := users[u].(version := users[u].version + 1)];
        sessions := RevokeUserSessions(sessions, u);
      }
      assert View() == Sessions.Committed(old(View()), SetUserStatus(old(View()), u, requested));
      return Ok(Done);
    }
  }
}
