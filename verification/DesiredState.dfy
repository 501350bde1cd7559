/** Signed desired-state documents: canonical form, validation, and the agreement between what is
    stored at publication and what verification accepts later.

    Hashing and signing are injective terms: two digests are equal exactly when the digested values
    are, and a signature is equal to `Signature(key, document)` exactly when that key signed that
    document. */
module DesiredState {
  import opened Domain
  import opened Ordering

  datatype DesiredUser = DesiredUser(user: UserId, credential: CredentialId)

  datatype Configuration = Configuration(
    minAgentVersion: string,
    listenPort: nat,
    publicPort: Option<nat>,
    serverNames: seq<string>,
    target: string)

  const SCHEMA_VERSION: nat := 2
  const SUPPORTED_SCHEMA_VERSIONS: set<nat> := {1, 2}
  const MAX_USERS: nat := 10_000

  // ----- canonical form -----

  predicate UserLeq(a: DesiredUser, b: DesiredUser) {
    a.user < b.user || (a.user == b.user && a.credential <= b.credential)
  }

  lemma UserOrder()
    ensures TotalOrder(UserLeq)
  {
  }

  function CanonicalConfiguration(c: Configuration): Configuration {
    c.(serverNames := Sort(StringLeq, c.serverNames))
  }

  /** The user list a document carries for a given set of users. */
  ghost function CanonicalUsers(users: set<DesiredUser>): seq<DesiredUser> {
    Sort(UserLeq, Enumerate(users))
  }

  /** Whatever order the rows of a set arrive in, canonicalization gives `CanonicalUsers`. */
  lemma CanonicalUsersOfRows(rows: seq<DesiredUser>, users: set<DesiredUser>)
    requires multiset(rows) == multiset(users)
    ensures Sort(UserLeq, rows) == CanonicalUsers(users)
  {
    UserOrder();
    SortIgnoresOrder(UserLeq, rows, Enumerate(users));
  }

  /** Document user lists are equal exactly when the user sets are: comparing canonical lists, as
      reconciliation does, decides equality of the underlying policies. */
  lemma CanonicalUsersInjective(a: set<DesiredUser>, b: set<DesiredUser>)
    ensures CanonicalUsers(a) == CanonicalUsers(b) <==> a == b
  {
    UserOrder();
    SortSorts(UserLeq, Enumerate(a));
    SortSorts(UserLeq, Enumerate(b));
    if CanonicalUsers(a) == CanonicalUsers(b) {
      assert multiset(a) == multiset(b);
      forall x ensures x in a <==> x in b {
        assert x in a <==> x in multiset(a);
        assert x in b <==> x in multiset(b);
      }
    }
  }

  lemma CanonicalConfigurationIdempotent(c: Configuration)
    ensures CanonicalConfiguration(CanonicalConfiguration(c)) == CanonicalConfiguration(c)
  {
    StringOrder();
    SortSorts(StringLeq, c.serverNames);
    SortOfSorted(StringLeq, Sort(StringLeq, c.serverNames));
  }

  /** The mutable draft whose vectors are sorted in place before signing. */
  class DesiredStateDraft {
    var configuration: Configuration
    var users: seq<DesiredUser>

    constructor (configuration: Configuration, users: seq<DesiredUser>)
      ensures this.configuration == configuration && this.users == users
    {
      this.configuration := configuration;
      this.users := users;
    }

    method Canonicalize()
      modifies this
      ensures users == Sort(UserLeq, old(users))
      ensures configuration == CanonicalConfiguration(old(configuration))
    {
      UserOrder();
      StringOrder();
      users := SortVector(UserLeq, users);
      var names := SortVector(StringLeq, configuration.serverNames);
      configuration := configuration.(serverNames := names);
    }
  }

  // ----- validation -----

  /** Bytes of the UTF-8 encoding. */
  function Utf8Length(s: string): nat {
    if s == [] then 0
    else Utf8Length(s[1..]) + (if s[0] < '\U{80}' then 1 else if s[0] < '\U{800}' then 2
                               else if s[0] < '\U{10000}' then 3 else 4)
  }

  predicate ShortText(s: string, bound: nat) {
    && s != [] && Utf8Length(s) <= bound
    && forall i :: 0 <= i < |s| ==> !(s[i] < ' ' || '\U{7F}' <= s[i] <= '\U{9F}')
  }

  predicate Ports(schema: nat, c: Configuration) {
    && 0 < c.listenPort < 0x1_0000
    && (schema == 1 ==> c.publicPort.None?)
    && (schema == 2 ==>
          && c.publicPort.Some?
          && 0 < c.publicPort.value < 0x1_0000
          && 1_024 <= c.listenPort
          && c.publicPort.value != c.listenPort)
  }

  predicate HostPort(target: string) {
    && ShortText(target, 259)
    && ':' in target
    && forall i :: 0 <= i < |target| - 1 ==> !(target[i] == '/' && target[i + 1] == '/')
  }

  predicate ValidConfiguration(schema: nat, c: Configuration) {
    && ShortText(c.minAgentVersion, 64)
    && Ports(schema, c)
    && 0 < |c.serverNames| <= 16
    && (forall i :: 0 <= i < |c.serverNames| ==> ShortText(c.serverNames[i], 253))
    && HostPort(c.target)
  }

  /** Sorting the server names does not change whether a configuration is acceptable. */
  lemma CanonicalConfigurationValid(schema: nat, c: Configuration)
    ensures ValidConfiguration(schema, CanonicalConfiguration(c)) <==> ValidConfiguration(schema, c)
  {
    StringOrder();
    var sorted := Sort(StringLeq, c.serverNames);
    SortSorts(StringLeq, c.serverNames);
    assert |sorted| == |multiset(sorted)| == |c.serverNames|;
    forall i | 0 <= i < |sorted| ensures sorted[i] in c.serverNames {
      assert sorted[i] in multiset(sorted);
    }
    forall i | 0 <= i < |c.serverNames| ensures c.serverNames[i] in sorted {
      assert c.serverNames[i] in multiset(c.serverNames);
    }
  }

  predicate DistinctIdentities(users: seq<DesiredUser>) {
    forall i, j :: 0 <= i < j < |users| ==>
      users[i].user != users[j].user && users[i].credential != users[j].credential
  }

  // ----- the stored text -----

  /** Characters of a decimal number. */
  function Digits(n: nat): nat {
    if n < 10 then 1 else Digits(n / 10) + 1
  }

  /** Characters of a JSON string without control characters: two quotes, and a backslash before each
      quote and each backslash. */
  function JsonText(s: string): nat {
    if s == [] then 2 else JsonText(s[1..]) + (if s[0] == '"' || s[0] == '\\' then 2 else 1)
  }

  /** Characters of a non-empty list of JSON strings, without its brackets. */
  function JsonTexts(names: seq<string>): nat {
    if names == [] then 0
    else JsonText(names[0]) + (if |names| == 1 then 0 else JsonTexts(names[1..]) + 1)
  }

  /** Field names, punctuation, the four identifiers, the second-precision time and the signature. */
  const ENVELOPE_TEXT: nat := 489

  /** One user object: its field names, three UUIDs and `true`. */
  const USER_TEXT: nat := 169

  const MAX_ARTIFACT: nat := 1_048_576

  /** Characters of the serialized envelope.  Every identifier has 36 characters, so beside the
      configuration only the revision number and the number of users matter. */
  function ArtifactLength(c: Configuration, revision: nat, users: nat): nat {
    ENVELOPE_TEXT + Digits(revision) + JsonText(c.minAgentVersion)
    + Digits(c.listenPort) + (if c.publicPort.Some? then Digits(c.publicPort.value) else 0)
    + JsonTexts(c.serverNames) + JsonText(c.target)
    + users * USER_TEXT + (if users == 0 then 0 else users - 1)
  }

  /** CHECK(length(artifact_json) <= 1048576). */
  predicate ArtifactFits(c: Configuration, revision: nat, users: nat) {
    ArtifactLength(c, revision, users) <= MAX_ARTIFACT
  }

  /** The stored text bounds the users far below the document's own limit. */
  lemma ArtifactBindsFirst(c: Configuration, revision: nat, users: nat)
    requires ArtifactFits(c, revision, users)
    ensures users <= 6_165 < MAX_USERS
  {
  }

  // ----- publication and verification -----

  type KeyId = nat

  datatype Document = Document(
    schemaVersion: nat,
    network: nat,
    node: NodeId,
    revision: nat,
    createdAt: Time,
    configuration: Configuration,
    users: seq<DesiredUser>,
    signingKey: KeyId,
    controllerInstance: nat)

  datatype Signature = Signature(key: KeyId, document: Document)
  datatype Envelope = Envelope(document: Document, signature: Signature)

  /** Stored JSON text: the serialization of an envelope, or text that does not parse. */
  datatype Artifact = Json(envelope: Envelope) | Unparseable(text: nat)
  datatype Digest = OfArtifact(artifact: Artifact) | OfTranscript(document: Document)

  /** One row of the revision table, as handed to verification. */
  datatype StoredRow = StoredRow(
    schemaVersion: nat,
    network: nat,
    node: NodeId,
    revision: nat,
    createdAt: Time,
    controllerInstance: nat,
    signingKey: KeyId,
    artifact: Artifact,
    artifactDigest: Digest,
    transcriptDigest: Digest,
    signature: Signature)

  datatype DesiredStateError = Validation | Crypto | Malformed | Integrity

  predicate ValidDocument(d: Document, network: nat, node: NodeId, controllerInstance: nat, supported: set<nat>) {
    && d.schemaVersion in supported
    && d.network == network
    && d.node == node
    && d.controllerInstance == controllerInstance
    && |d.users| <= MAX_USERS
    && DistinctIdentities(d.users)
    && ValidConfiguration(d.schemaVersion, d.configuration)
  }

  /** Canonicalize, validate, sign. */
  function Build(key: KeyId, network: nat, node: NodeId, revision: nat, createdAt: Time,
                 controllerInstance: nat, configuration: Configuration, users: seq<DesiredUser>)
    : (r: Outcome<Envelope, DesiredStateError>)
  {
    var document := Document(SCHEMA_VERSION, network, node, revision, createdAt,
                             CanonicalConfiguration(configuration), Sort(UserLeq, users), key, controllerInstance);
    if ValidDocument(document, network, node, controllerInstance, {SCHEMA_VERSION})
    then Ok(Envelope(document, Signature(key, document)))
    else Err(Validation)
  }

  /** The row publication writes for an envelope. */
  function RowOf(e: Envelope): StoredRow {
    StoredRow(e.document.schemaVersion, e.document.network, e.document.node, e.document.revision,
              e.document.createdAt, e.document.controllerInstance, e.document.signingKey,
              Json(e), OfArtifact(Json(e)), OfTranscript(e.document), e.signature)
  }

  function Verify(key: KeyId, row: StoredRow): (r: Outcome<Envelope, DesiredStateError>)
  {
    if OfArtifact(row.artifact) != row.artifactDigest then Err(Integrity)
    else match row.artifact
      case Unparseable(_) => Err(Malformed)
      case Json(envelope) =>
        var d := envelope.document;
        if !ValidDocument(d, row.network, row.node, row.controllerInstance, SUPPORTED_SCHEMA_VERSIONS)
            then Err(Validation)
        else if d.revision != row.revision || d.schemaVersion != row.schemaVersion || d.createdAt != row.createdAt
             || d.signingKey != row.signingKey || envelope.signature != row.signature || row.signingKey != key
        then Err(Integrity)
        else if OfTranscript(d) != row.transcriptDigest then Err(Integrity)
        else if envelope.signature != Signature(key, d) then Err(Crypto)
        else Ok(envelope)
  }

  /** Verification accepts exactly the rows publication writes: a row verifies to an envelope if and
      only if the envelope carries this key's signature over an acceptable document and every stored
      column is the one publication of that envelope stores.  Any altered column is refused. */
  lemma VerifyAcceptsExactlyPublishedRows(key: KeyId, row: StoredRow, e: Envelope)
    ensures Verify(key, row) == Ok(e) <==>
            && row == RowOf(e)
            && e.signature == Signature(key, e.document)
            && e.document.signingKey == key
            && ValidDocument(e.document, e.document.network, e.document.node, e.document.controllerInstance,
                             SUPPORTED_SCHEMA_VERSIONS)
  {
  }

  /** What was built verifies to itself, with its users in canonical order. */
  lemma BuildThenVerify(key: KeyId, network: nat, node: NodeId, revision: nat, createdAt: Time,
                        controllerInstance: nat, configuration: Configuration, users: seq<DesiredUser>)
    ensures var built := Build(key, network, node, revision, createdAt, controllerInstance, configuration, users);
            built.Ok? ==>
              && Verify(key, RowOf(built.value)) == built
              && Sorted(UserLeq, built.value.document.users)
              && multiset(built.value.document.users) == multiset(users)
  {
    UserOrder();
    SortSorts(UserLeq, users);
    assert SCHEMA_VERSION in SUPPORTED_SCHEMA_VERSIONS;
  }
}
