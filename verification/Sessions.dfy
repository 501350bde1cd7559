/** Member sessions: device activation, login, rotating refresh credentials, access tokens, and every
    account or device step that ends sessions.

    Secrets are injective terms.  A secret derived by the controller records the whole derivation
    context; a stored verifier is equal to the verifier of a presented secret exactly when the secrets
    are equal.  A refresh request consists of its credential only, so its digest is the credential. */
module Sessions {
  import opened Domain
  import opened Plane

  type ActivationId = nat
  type Key = nat
  type Digest = nat

  const ACCESS_LIFETIME: nat := 15 * 60
  const REFRESH_LIFETIME: nat := 30 * 24 * 60 * 60

  /** Derivation context of a pair of session secrets. */
  datatype Origin =
    | Initial(device: DeviceId, activation: Option<ActivationId>, digest: Digest, issuedAt: Time)
    | Rotated(device: DeviceId, source: nat, key: Key, request: Secret, issuedAt: Time)

  /** A presented secret names its session and is either derived by the controller or made up. */
  datatype Secret = Derived(session: SessionId, origin: Origin) | Unknown(session: SessionId, text: nat)

  datatype DeviceStatus = DeviceActive | DeviceRevoked

  datatype User = User(status: AccountStatus, version: nat, name: nat)
  datatype Device = Device(user: UserId, status: DeviceStatus, createdAt: Time)

  /** Refresh and access verifiers are kept in separate columns of separate derivation domains. */
  datatype Session = Session(
    user: UserId,
    device: DeviceId,
    generation: nat,
    current: Secret,
    previous: Option<Secret>,
    access: Secret,
    accessExpires: Time,
    version: nat,
    createdAt: Time,
    expires: Time,
    revoked: bool)

  datatype Account = Account(user: UserId, name: nat, status: AccountStatus)

  datatype RefreshKey = RefreshKey(session: SessionId, source: nat, key: Key)
  datatype RefreshRecord = RefreshRecord(request: Secret, account: Account, issuedAt: Time,
                                         accessExpires: Time, refreshExpires: Time)
  datatype LoginRecord = LoginRecord(digest: Digest, user: UserId, device: DeviceId, session: SessionId,
      account: Account)
  datatype Consumption = Consumption(digest: Digest, device: DeviceId, session: SessionId, account: Account)
  datatype Activation = Activation(user: UserId, secret: nat, expires: Time, consumed: Option<Consumption>)

  datatype Store = Store(
    users: map<UserId, User>,
    devices: map<DeviceId, Device>,
    sessions: map<SessionId, Session>,
    refreshes: map<RefreshKey, RefreshRecord>,
    logins: map<Key, LoginRecord>,
    activations: map<ActivationId, Activation>)

  const EmptyStore: Store := Store(map[], map[], map[], map[], map[], map[])

  datatype SessionError =
    | AuthenticationFailed | RequestConflict | CredentialReused | StoreConstraint | UnknownAccount
    | Blocked | LifecycleConflict | UnknownDevice | ActivationInvalid | ActivationExpired | ActivationConsumed
    | InvalidProof

  /** Credentials and account handed to the client. */
  datatype Response = Response(account: Account, device: DeviceId, refresh: Secret, access: Secret,
                               accessExpires: Time, refreshExpires: Time)

  /** The committed tables together with the reply; a refused reuse commits a revocation. */
  datatype Answer = Answer(store: Store, reply: Outcome<Response, SessionError>)

  // ----- creation of sessions -----

  function AccountOf(t: Store, u: UserId): Account
    requires u in t.users
  {
    Account(u, t.users[u].name, t.users[u].status)
  }

  function InitialSecret(s: SessionId, d: DeviceId, activation: Option<ActivationId>, digest: Digest,
                         now: Time): Secret {
    Derived(s, Initial(d, activation, digest, now))
  }

  /** A new device with its first session; identifiers must be new. */
  function Issue(t: Store, u: UserId, d: DeviceId, s: SessionId, activation: Option<ActivationId>, digest: Digest,
                 now: Time)
    : Outcome<Store, SessionError>
    requires u in t.users
  {
    if d in t.devices || s in t.sessions then Err(StoreConstraint)
    else
      var secret := InitialSecret(s, d, activation, digest, now);
      Ok(t.(devices := t.devices[d := Device(u, DeviceActive, now)],
            sessions := t.sessions[s := Session(u, d, 0, secret, None, secret, now + ACCESS_LIFETIME,
                                                t.users[u].version, now, now + REFRESH_LIFETIME, false)]))
  }

  /** The response to the request that created a session, derived again from its row. */
  function InitialResponse(t: Store, account: Account, d: DeviceId, s: SessionId, activation: Option<ActivationId>,
                           digest: Digest)
    : Response
    requires s in t.sessions
  {
    var row := t.sessions[s];
    var secret := InitialSecret(s, d, activation, digest, row.createdAt);
    Response(account, d, secret, secret, row.createdAt + ACCESS_LIFETIME, row.expires)
  }

  function Login(t: Store, key: Key, digest: Digest, u: UserId, passwordOk: bool, proofOk: bool,
                 d: DeviceId, s: SessionId, now: Time): Answer
  {
    if key in t.logins then
      var record := t.logins[key];
      if record.digest != digest then Answer(t, Err(RequestConflict))
      else if record.session !in t.sessions then Answer(t, Err(StoreConstraint))
      else Answer(t, Ok(InitialResponse(t, record.account, record.device, record.session, None, digest)))
    else if u !in t.users || t.users[u].status != AccountActive || !passwordOk then Answer(t, Err(AuthenticationFailed))
    else if !proofOk then Answer(t, Err(InvalidProof))
    else match Issue(t, u, d, s, None, digest, now)
      case Err(e) => Answer(t, Err(e))
      case Ok(issued) =>
        var account := AccountOf(t, u);
        Answer(issued.(logins := t.logins[key := LoginRecord(digest, u, d, s, account)]),
               Ok(InitialResponse(issued, account, d, s, None, digest)))
  }

  function CreateActivation(t: Store, a: ActivationId, u: UserId, secret: nat,
                            expires: Time): Outcome<Store, SessionError> {
    if u !in t.users then Err(UnknownAccount)
    else if t.users[u].status != AccountActive then Err(Blocked)
    else if a in t.activations then Err(StoreConstraint)
    else Ok(t.(activations := t.activations[a := Activation(u, secret, expires, None)]))
  }

  function ConsumeActivation(t: Store, a: ActivationId, secret: nat, digest: Digest, proofOk: bool,
                             d: DeviceId, s: SessionId, now: Time): Answer
  {
    if a !in t.activations || t.activations[a].secret != secret then Answer(t, Err(ActivationInvalid))
    else
      var row := t.activations[a];
      if row.expires < now && row.consumed.None? then Answer(t, Err(ActivationExpired))
      else if !proofOk then Answer(t, Err(InvalidProof))
      else if row.consumed.Some? then
        var c := row.consumed.value;
        if c.digest != digest then Answer(t, Err(ActivationConsumed))
        else if c.session !in t.sessions then Answer(t, Err(StoreConstraint))
        else Answer(t, Ok(InitialResponse(t, c.account, c.device, c.session, Some(a), digest)))
      else if row.user !in t.users || t.users[row.user].status != AccountActive then Answer(t, Err(Blocked))
      else match Issue(t, row.user, d, s, Some(a), digest, now)
        case Err(e) => Answer(t, Err(e))
        case Ok(issued) =>
          var account := AccountOf(t, row.user);
          Answer(issued.(activations := t.activations[a := row.(consumed := Some(Consumption(digest, d, s, account)))]),
                 Ok(InitialResponse(issued, account, d, s, Some(a), digest)))
  }

  // ----- refresh -----

  /** The generation a presented refresh credential belongs to, if it is the current or previous one. */
  function SourceGeneration(row: Session, credential: Secret): Option<nat> {
    if row.current == credential then Some(row.generation)
    else if row.previous == Some(credential) && row.generation > 0 then Some(row.generation - 1)
    else None
  }

  function RotatedSecret(s: SessionId, d: DeviceId, source: nat, key: Key, request: Secret, issuedAt: Time): Secret {
    Derived(s, Rotated(d, source, key, request, issuedAt))
  }

  /** The response a rotation record stands for. */
  function RecordedResponse(s: SessionId, d: DeviceId, source: nat, key: Key, record: RefreshRecord): Response {
    var secret := RotatedSecret(s, d, source, key, record.request, record.issuedAt);
    Response(record.account, d, secret, secret, record.accessExpires, record.refreshExpires)
  }

  /** All lifecycle gates of a session. */
  predicate Admitted(t: Store, row: Session, now: Time) {
    && !row.revoked && row.expires > now
    && row.user in t.users && row.version == t.users[row.user].version && t.users[row.user].status == AccountActive
    && row.device in t.devices && t.devices[row.device].status == DeviceActive
  }

  function Rotation(row: Session, secret: Secret, now: Time): Session {
    row.(generation := row.generation + 1, previous := Some(row.current), current := secret, access := secret,
         accessExpires := now + ACCESS_LIFETIME)
  }

  function Refresh(t: Store, credential: Secret, key: Key, now: Time): Answer {
    var s := credential.session;
    if s !in t.sessions then Answer(t, Err(AuthenticationFailed))
    else
      var row := t.sessions[s];
      match SourceGeneration(row, credential)
      case None => Answer(t, Err(AuthenticationFailed))
      case Some(source) =>
        var index := RefreshKey(s, source, key);
        if index in t.refreshes then
          if t.refreshes[index].request != credential then Answer(t, Err(RequestConflict))
          else Answer(t, Ok(RecordedResponse(s, row.device, source, key, t.refreshes[index])))
        else if row.previous == Some(credential) then
          Answer(t.(sessions := t.sessions[s := row.(revoked := true)]), Err(CredentialReused))
        else if !Admitted(t, row, now) then Answer(t, Err(AuthenticationFailed))
        // CHECK(expires_at > access_expires_at) and CHECK(last_seen_at >= created_at)
        else if row.expires <= now + ACCESS_LIFETIME || now < t.devices[row.device].createdAt
            then Answer(t, Err(StoreConstraint))
        else
          var record := RefreshRecord(credential, AccountOf(t, row.user), now, now + ACCESS_LIFETIME, row.expires);
          var secret := RotatedSecret(s, row.device, source, key, credential, now);
          Answer(t.(sessions := t.sessions[s := Rotation(row, secret, now)], refreshes := t.refreshes[index := record]),
                 Ok(RecordedResponse(s, row.device, source, key, record)))
  }

  datatype Member = Member(user: UserId, device: DeviceId, session: SessionId)

  function Authenticate(t: Store, access: Secret, now: Time): Outcome<Member, SessionError> {
    var s := access.session;
    if s !in t.sessions then Err(AuthenticationFailed)
    else
      var row := t.sessions[s];
      if row.access != access || row.accessExpires <= now || !Admitted(t, row, now) then Err(AuthenticationFailed)
      else if now < t.devices[row.device].createdAt then Err(StoreConstraint)
      else Ok(Member(row.user, row.device, s))
  }

  // ----- ending sessions -----

  function RevokeUserSessions(sessions: map<SessionId, Session>, u: UserId): map<SessionId, Session> {
    map s | s in sessions :: if sessions[s].user == u then sessions[s].(revoked := true) else sessions[s]
  }

  function RevokeDeviceSessions(sessions: map<SessionId, Session>, d: DeviceId): map<SessionId, Session> {
    map s | s in sessions :: if sessions[s].device == d then sessions[s].(revoked := true) else sessions[s]
  }

  function RevokeUserDevices(devices: map<DeviceId, Device>, u: UserId): map<DeviceId, Device> {
    map d | d in devices :: if devices[d].user == u then devices[d].(status := DeviceStatus.DeviceRevoked)
        else devices[d]
  }

  function Logout(t: Store, member: Member, path: DeviceId): Outcome<Store, SessionError> {
    if member.device != path then Err(AuthenticationFailed)
    else if member.session !in t.sessions || t.sessions[member.session].device != member.device then Ok(t)
    else Ok(t.(sessions := t.sessions[member.session := t.sessions[member.session].(revoked := true)]))
  }

  function RevokeDevice(t: Store, d: DeviceId): Outcome<Store, SessionError> {
    if d !in t.devices then Err(UnknownDevice)
    else Ok(t.(devices := t.devices[d := t.devices[d].(status := DeviceStatus.DeviceRevoked)],
               sessions := RevokeDeviceSessions(t.sessions, d)))
  }

  /** Raise the account's credential version and end all its sessions. */
  function EndSessions(t: Store, u: UserId, status: AccountStatus): Store
    requires u in t.users
  {
    t.(users := t.users[u := t.users[u].(version := t.users[u].version + 1, status := status)],
       sessions := RevokeUserSessions(t.sessions, u))
  }

  function SetPassword(t: Store, u: UserId): Outcome<Store, SessionError> {
    if u !in t.users then Err(UnknownAccount)
    else if t.users[u].status == AccountDeleted then Err(Blocked)
    else Ok(EndSessions(t, u, t.users[u].status))
  }

  function ResetSessions(t: Store, u: UserId): Outcome<Store, SessionError> {
    if u !in t.users then Err(UnknownAccount)
    else if t.users[u].status == AccountDeleted then Err(Blocked)
    else Ok(EndSessions(t, u, t.users[u].status).(devices := RevokeUserDevices(t.devices, u)))
  }

  /** A valid, unexpired reset token sets the password of an active account. */
  function ConsumeReset(t: Store, u: UserId): Outcome<Store, SessionError> {
    if u !in t.users then Err(UnknownAccount)
    else if t.users[u].status != AccountActive then Err(Blocked)
    else Ok(EndSessions(t, u, AccountActive))
  }

  function CreateUser(t: Store, u: UserId, name: nat): Outcome<Store, SessionError> {
    if u in t.users then Err(StoreConstraint)
    else Ok(t.(users := t.users[u := User(AccountActive, 1, name)]))
  }

  /** Session side of a status change: leaving the active state ends sessions, returning does not. */
  function SetUserStatus(t: Store, u: UserId, requested: AccountStatus): Outcome<Store, SessionError> {
    if u !in t.users then Err(UnknownAccount)
    else if t.users[u].status == AccountDeleted && requested != AccountDeleted then Err(LifecycleConflict)
    else if t.users[u].status == requested then Ok(t)
    else if requested == AccountActive then Ok(t.(users := t.users[u := t.users[u].(status := AccountActive)]))
    else Ok(EndSessions(t, u, requested))
  }

  // ----- runs -----

  datatype Step =
    | DoCreateUser(user: UserId, name: nat)
    | DoLogin(key: Key, digest: Digest, user: UserId, passwordOk: bool, proofOk: bool, device: DeviceId,
        session: SessionId, now: Time)
    | DoCreateActivation(activation: ActivationId, user: UserId, secret: nat, expires: Time)
    | DoConsumeActivation(activation: ActivationId, secret: nat, digest: Digest, proofOk: bool, device: DeviceId,
        session: SessionId, now: Time)
    | DoRefresh(credential: Secret, key: Key, now: Time)
    | DoLogout(member: Member, path: DeviceId)
    | DoRevokeDevice(device: DeviceId)
    | DoSetPassword(user: UserId)
    | DoResetSessions(user: UserId)
    | DoConsumeReset(user: UserId)
    | DoSetUserStatus(user: UserId, requested: AccountStatus)

  function Committed(t: Store, outcome: Outcome<Store, SessionError>): Store {
    if outcome.Ok? then outcome.value else t
  }

  function After(t: Store, step: Step): Store {
    match step
    case DoCreateUser(u, name) => Committed(t, CreateUser(t, u, name))
    case DoLogin(key, digest, u, passwordOk, proofOk, d, s, now) => Login(t, key, digest, u, passwordOk, proofOk, d, s,
        now).store
    case DoCreateActivation(a, u, secret, expires) => Committed(t, CreateActivation(t, a, u, secret, expires))
    case DoConsumeActivation(a, secret, digest, proofOk, d, s, now) => ConsumeActivation(t, a, secret, digest, proofOk,
        d, s, now).store
    case DoRefresh(credential, key, now) => Refresh(t, credential, key, now).store
    case DoLogout(member, path) => Committed(t, Logout(t, member, path))
    case DoRevokeDevice(d) => Committed(t, RevokeDevice(t, d))
    case DoSetPassword(u) => Committed(t, SetPassword(t, u))
    case DoResetSessions(u) => Committed(t, ResetSessions(t, u))
    case DoConsumeReset(u) => Committed(t, ConsumeReset(t, u))
    case DoSetUserStatus(u, requested) => Committed(t, SetUserStatus(t, u, requested))
  }

  function Run(t: Store, steps: seq<Step>): Store
    decreases |steps|
  {
    if steps == [] then t else Run(After(t, steps[0]), steps[1..])
  }
}
