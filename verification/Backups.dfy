/** Backups of the whole controller: what verification accepts, when an earlier backup may be restored, and
    what such a restore can lose.

    A digest is the digested value and a signature the pair of key and signed value.  The size of the written
    manifest is an input. */
module Backups {
  import opened Domain
  import opened HighWater
  import opened Controllers
  import opened AuditTrail
  import Plane
  import ControlRuns
  import Sessions
  import SessionChains
  import Telemetry
  import Rollups
  import Endpoints

  /** The marks a backup of this controller records; the two AUTOINCREMENT tables are 0 and 1. */
  function MarksOf(c: Controller): HighWaterMarks {
    HighWaterMarks(
      c.plane.last, c.audit, map[0 := c.audit, 1 := |c.endpoints.attempts|], c.telemetry.tables.cursors,
      map s | s in c.sessions.sessions :: c.sessions.sessions[s].generation,
      c.bundles,
      map n | n in c.plane.canaries :: c.plane.canaries[n].generation)
  }

  // ----- files -----

  const BACKUP_SCHEMA: nat := 1
  const APPLICATION_ID: nat := 0x5243_4F4E
  const DATABASE_SCHEMA: nat := 16
  const MAX_MANIFEST_BYTES: nat := 1_048_576

  type Key = nat

  /** The controller instance and key a stored revision or activation names. */
  datatype Binding = Binding(instance: nat, key: Key)

  datatype DatabaseFile =
    | Sqlite(application: nat, schema: nat, network: nat, instance: nat, bindings: set<Binding>, controller: Controller)
    | Damaged(bytes: nat)

  datatype IdentityFile = PrivateKey(key: Key) | Unreadable(bytes: nat)

  datatype Identity = Identity(network: nat, instance: nat, key: Key)

  datatype Inspected = Inspected(identity: Identity, marks: HighWaterMarks)

  datatype Payload = Payload(
    backupSchema: nat, createdAt: nat, databaseDigest: DatabaseFile, identityDigest: IdentityFile,
    application: nat, schema: nat, identity: Identity, marks: HighWaterMarks, contract: string)

  datatype Signature = Signature(key: Key, payload: Payload)

  datatype Manifest = Manifest(payload: Payload, digest: Payload, signature: Signature, bytes: nat)

  datatype Backup = Backup(database: DatabaseFile, identity: IdentityFile, manifest: Manifest)

  datatype BackupError =
    | IntegrityCheckFailed | WrongApplicationId | MigrationMismatch | IdentityUnreadable | StoredBindingMismatch
    | ManifestTooLarge | ManifestDigestMismatch | UnsupportedManifest | InvalidEncryptionContract
    | ArtifactDigestMismatch | ControllerIdentityMismatch | HighWaterMismatch | ManifestSignatureMismatch
    | RecoveryBaselineMismatch | HighWaterRollback

  function Inspect(database: DatabaseFile, identity: IdentityFile): Outcome<Inspected, BackupError> {
    match database
    case Damaged(_) => Err(IntegrityCheckFailed)
    case Sqlite(application, schema, network, instance, bindings, controller) =>
      if application != APPLICATION_ID then Err(WrongApplicationId)
      else if schema != DATABASE_SCHEMA then Err(MigrationMismatch)
      else match identity
        case Unreadable(_) => Err(IdentityUnreadable)
        case PrivateKey(key) =>
          if !(bindings <= {Binding(instance, key)}) then Err(StoredBindingMismatch)
          else Ok(Inspected(Identity(network, instance, key), MarksOf(controller)))
  }

  /** A non-secret label of at most 128 letters, digits, dots, dashes and underscores. */
  predicate ValidContract(contract: string) {
    && 0 < |contract| <= 128
    && forall i :: 0 <= i < |contract| ==>
         || 'a' <= contract[i] <= 'z' || 'A' <= contract[i] <= 'Z' || '0' <= contract[i] <= '9'
         || contract[i] == '-' || contract[i] == '_' || contract[i] == '.'
  }

  predicate Supported(p: Payload) {
    p.backupSchema == BACKUP_SCHEMA && p.application == APPLICATION_ID && p.schema == DATABASE_SCHEMA
  }

  function VerifyBackup(b: Backup): Outcome<Inspected, BackupError> {
    var p := b.manifest.payload;
    if b.manifest.bytes > MAX_MANIFEST_BYTES then Err(ManifestTooLarge)
    else if b.manifest.digest != p then Err(ManifestDigestMismatch)
    else if !Supported(p) then Err(UnsupportedManifest)
    else if !ValidContract(p.contract) then Err(InvalidEncryptionContract)
    else if p.databaseDigest != b.database || p.identityDigest != b.identity then Err(ArtifactDigestMismatch)
    else
      var inspected :- Inspect(b.database, b.identity);
      if p.identity != inspected.identity then Err(ControllerIdentityMismatch)
      else if p.marks != inspected.marks then Err(HighWaterMismatch)
      else if b.manifest.signature != Signature(inspected.identity.key, p) then Err(ManifestSignatureMismatch)
      else Ok(inspected)
  }

  /** Snapshot, inspect, sign, and verify what was staged. */
  function CreateBackup(database: DatabaseFile, identity: IdentityFile, now: nat, contract: string, bytes: nat)
    : Outcome<Backup, BackupError>
  {
    if !ValidContract(contract) then Err(InvalidEncryptionContract)
    else
      var inspected :- Inspect(database, identity);
      var p := Payload(BACKUP_SCHEMA, now, database, identity, APPLICATION_ID, DATABASE_SCHEMA,
                       inspected.identity, inspected.marks, contract);
      var staged := Backup(database, identity, Manifest(p, p, Signature(inspected.identity.key, p), bytes));
      var _ :- VerifyBackup(staged);
      Ok(staged)
  }

  datatype Baseline = CurrentDatabase(database: DatabaseFile, identity: IdentityFile) | NoLocalHistory

  /** Verify, compare with the stopped controller if there is one, and bring the files back. */
  function Restore(b: Backup, baseline: Baseline): Outcome<DatabaseFile, BackupError> {
    var verified :- VerifyBackup(b);
    match baseline
    case NoLocalHistory => Ok(b.database)
    case CurrentDatabase(database, identity) =>
      var current :- Inspect(database, identity);
      if verified.identity != current.identity then Err(RecoveryBaselineMismatch)
      else if !NotBehind(verified.marks, current.marks) then Err(HighWaterRollback)
      else Ok(b.database)
  }

  // ----- verification -----

  /** Verification accepts exactly what creation writes for the files beside the manifest: an altered file,
      manifest field or signature is refused. */
  lemma VerifyAcceptsExactlyCreated(b: Backup)
    ensures VerifyBackup(b).Ok? <==>
            CreateBackup(b.database, b.identity, b.manifest.payload.createdAt, b.manifest.payload.contract,
                b.manifest.bytes) == Ok(b)
  {
    hide MarksOf, ValidContract;
    var made := CreateBackup(b.database, b.identity, b.manifest.payload.createdAt, b.manifest.payload.contract,
        b.manifest.bytes);
    if made == Ok(b) {
      CreatedBackupVerifies(b.database, b.identity, b.manifest.payload.createdAt, b.manifest.payload.contract,
          b.manifest.bytes, b);
    }
  }

  /** A created backup verifies to what inspecting its files finds. */
  lemma CreatedBackupVerifies(database: DatabaseFile, identity: IdentityFile, now: nat, contract: string, bytes: nat,
                              b: Backup)
    requires CreateBackup(database, identity, now, contract, bytes) == Ok(b)
    ensures b.database == database && b.identity == identity && VerifyBackup(b) == Inspect(database, identity)
  {
    hide MarksOf, ValidContract;
  }

  // ----- monotone marks -----

  lemma CursorsGrow(w: Telemetry.World, step: Telemetry.Step)
    ensures Covers(Telemetry.After(w, step).tables.cursors, w.tables.cursors)
  {
    if step.DoIngest? {
      Rollups.IngestCases(w, step.node, step.batch, step.now);
      var q := Telemetry.Ingest(w.tables, step.node, step.batch, step.now).tables;
      if Telemetry.Stores(w.tables, step.node, step.batch, step.now) {
        var known := w.tables.(cursors := w.tables.cursors[step.node := Telemetry.Acknowledged(w.tables, step.node)]);
        var s := Telemetry.PersistAll(known, step.node, step.batch.events, step.now).value;
        PersistAllFrame(known, step.node, step.batch.events, step.now, s);
      } else {
        forall k | k in w.tables.cursors ensures w.tables.cursors[k] <= Mark(q.cursors, k) {
          assert Telemetry.Acknowledged(q, k) == Telemetry.Acknowledged(w.tables, k);
        }
      }
    }
  }

  lemma PlaneMarks(t: Plane.Tables, q: Plane.Tables)
    requires ControlRuns.Grows(t, q)
    ensures t.last <= q.last
    ensures Covers(map n | n in q.canaries :: q.canaries[n].generation, map n | n in t.canaries ::
            t.canaries[n].generation)
  {
  }

  lemma SessionMarks(t: Sessions.Store, q: Sessions.Store)
    requires SessionChains.Grows(t, q)
    ensures Covers(map s | s in q.sessions :: q.sessions[s].generation, map s | s in t.sessions ::
            t.sessions[s].generation)
  {
  }

  /** No step lowers a mark. */
  lemma StepRaisesMarks(c: Controller, step: Step)
    requires Inv(c)
    ensures Inv(After(c, step)) && NotBehind(MarksOf(After(c, step)), MarksOf(c))
  {
    hide Inv, After, ControlRuns.Grows, SessionChains.Grows, Covers;
    var q := After(c, step);
    StepKeeps(c, step);
    CountersGrow(c, step);
    PlaneMarks(c.plane, q.plane);
    SessionMarks(c.sessions, q.sessions);
    SequencesGrow(c.audit, q.audit, |c.endpoints.attempts|, |q.endpoints.attempts|);
  }

  lemma SequencesGrow(a: nat, b: nat, x: nat, y: nat)
    requires a <= b && x <= y
    ensures Covers(map[0 := b, 1 := y], map[0 := a, 1 := x])
  {
  }

  /** The keyed marks outside the publication and session tables. */
  lemma CountersGrow(c: Controller, step: Step)
    ensures var q := After(c, step);
            Covers(q.telemetry.tables.cursors, c.telemetry.tables.cursors) && Covers(q.bundles, c.bundles)
  {
    hide Sessions.After, Telemetry.After, Endpoints.After, PlaneSide, SessionSide, ControlRuns.After,
         ControlRuns.Commits,
         SeenByEndpoints, Endpoints.Beat, PlaneRows, SessionRows;
    if step.TelemetryStep? {
      CursorsGrow(c.telemetry, step.telemetry);
    }
  }

  lemma {:induction false} RunRaisesMarks(c: Controller, steps: seq<Step>)
    requires Inv(c)
    ensures Inv(Run(c, steps)) && NotBehind(MarksOf(Run(c, steps)), MarksOf(c))
    decreases |steps|
  {
    hide Inv, After, MarksOf;
    if steps == [] {
      NotBehindIsAPreorder(MarksOf(c), MarksOf(c), MarksOf(c));
    } else {
      StepRaisesMarks(c, steps[0]);
      RunRaisesMarks(After(c, steps[0]), steps[1..]);
      NotBehindIsAPreorder(MarksOf(Run(c, steps)), MarksOf(After(c, steps[0])), MarksOf(c));
    }
  }

  // ----- restore -----

  /** The database of a controller, all of whose signed rows name this instance and key. */
  function FileOf(network: nat, instance: nat, key: Key, c: Controller): DatabaseFile {
    Sqlite(APPLICATION_ID, DATABASE_SCHEMA, network, instance, {Binding(instance, key)}, c)
  }

  /** A backup of an earlier state of the same controller is restored over the current state exactly when
      the marks are equal, up to absent keys with value zero. */
  lemma EarlierBackupRestoresExactly(before: seq<Step>, since: seq<Step>, network: nat, instance: nat, key: Key,
                                     now: nat,
                                     contract: string, bytes: nat, b: Backup)
    requires CreateBackup(FileOf(network, instance, key, Run(NewController, before)), PrivateKey(key), now, contract,
             bytes) == Ok(b)
    ensures var earlier := Run(NewController, before);
            var current := Run(earlier, since);
            Restore(b, CurrentDatabase(FileOf(network, instance, key, current), PrivateKey(key))).Ok? <==>
              Equivalent(MarksOf(earlier), MarksOf(current))
  {
    hide Run, Inv, MarksOf, NotBehind, Equivalent, VerifyBackup, CreateBackup;
    Reachable(before);
    var earlier := Run(NewController, before);
    CreatedBackupVerifies(FileOf(network, instance, key, earlier), PrivateKey(key), now, contract, bytes, b);
    RunRaisesMarks(earlier, since);
    NotBehindIsAPreorder(MarksOf(earlier), MarksOf(Run(earlier, since)), MarksOf(earlier));
  }

  /** An accepted restore of an earlier backup loses at most the progress that nodes reported since: received
      and validated results, reported cursors and agent versions.  Accounts, assignments, credentials,
      canaries, revisions, rollback answers and the whole session store are the current ones. */
  lemma RestoreLosesOnlyProgress(before: seq<Step>, since: seq<Step>, network: nat, instance: nat, key: Key, now: nat,
                                 contract: string, bytes: nat, b: Backup, restored: DatabaseFile)
    requires var earlier := Run(NewController, before);
             && CreateBackup(FileOf(network, instance, key, earlier), PrivateKey(key), now, contract, bytes) == Ok(b)
             && Restore(b, CurrentDatabase(FileOf(network, instance, key, Run(earlier, since)), PrivateKey(key)))
                == Ok(restored)
    ensures restored.Sqlite? && restored.controller == Run(NewController, before)
    ensures Quiet(restored.controller, Run(restored.controller, since))
  {
    hide Run, Inv, MarksOf, Restore, CreateBackup, Quiet;
    var earlier := Run(NewController, before);
    Reachable(before);
    EarlierBackupRestoresExactly(before, since, network, instance, key, now, contract, bytes, b);
    RestoredIsBackup(b, CurrentDatabase(FileOf(network, instance, key, Run(earlier, since)), PrivateKey(key)),
        restored);
    CreatedBackupVerifies(FileOf(network, instance, key, earlier), PrivateKey(key), now, contract, bytes, b);
    SameAudit(earlier, Run(earlier, since));
    RunIsQuiet(earlier, since);
  }

  lemma RestoredIsBackup(b: Backup, baseline: Baseline, restored: DatabaseFile)
    requires Restore(b, baseline) == Ok(restored)
    ensures restored == b.database
  {
    hide VerifyBackup, Inspect, NotBehind;
  }

  lemma SameAudit(c: Controller, q: Controller)
    requires Equivalent(MarksOf(c), MarksOf(q))
    ensures c.audit == q.audit
  {
  }

  /** And it does lose that: a received or validated report moves no mark. */
  lemma ProgressMovesNoMark(c: Controller, n: NodeId, revision: nat, r: Plane.RevisionResult)
    requires Inv(c) && (r.state == Plane.Received || r.state == Plane.Validated)
    ensures MarksOf(Operate(c, ControlRuns.DoRecord(n, revision, r))) == MarksOf(c)
  {
    hide Inv, WithPlane, Plane.RecordResult, OnlyProgress, MarksOf;
    match Plane.RecordResult(c.plane, n, revision, r) {
      case Err(_) =>
      case Ok(q) =>
        PlaneOf(c);
        RecordIsQuiet(c.plane, n, revision, r, q);
        QuietMarks(c, q);
    }
  }

  lemma QuietMarks(c: Controller, q: Plane.Tables)
    requires OnlyProgress(c.plane, q)
    ensures q.last == c.plane.last && MarksOf(WithPlane(c, q, {}, 0)) == MarksOf(c)
  {
    hide SnapshotsOf, CanariesOf, HostsOf, ResetVerifications, StatusesOf;
  }
}
