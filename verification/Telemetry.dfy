/** Telemetry ingestion, hourly and daily roll-ups, and bucket-aligned retention.

    A run is followed together with its history: the events accepted so far, in order, and the retention
    passes, each with the number of events accepted before it.  No step reads the history. */
module Telemetry {
  import opened Domain
  import opened Plane

  const HOUR: nat := 3_600
  const DAY: nat := 86_400
  const MAX_BATCH_EVENTS: nat := 1_000
  const HOURLY_RETENTION_DAYS: nat := 90
  const DAILY_RETENTION_DAYS: nat := 365
  const HEALTH_RETENTION_DAYS: nat := 30

  datatype Totals = Totals(up: nat, down: nat, connections: nat)

  const ZERO: Totals := Totals(0, 0, 0)

  function Plus(a: Totals, b: Totals): Totals {
    Totals(a.up + b.up, a.down + b.down, a.connections + b.connections)
  }

  datatype Kind =
    | TrafficDelta(user: UserId, delta: Totals)
    | Connection(user: UserId, details: nat)
    | CollectionStatus(code: nat)
    | QuotaState(user: UserId)

  datatype Event = Event(sequence: nat, occurredAt: Time, kind: Kind)
  datatype Batch = Batch(first: nat, last: nat, events: seq<Event>)

  datatype EventKey = EventKey(node: NodeId, sequence: nat)
  datatype StoredEvent = StoredEvent(event: Event, receivedAt: Time, details: bool)
  datatype Bucket = Bucket(user: UserId, node: NodeId, start: int)

  datatype TelemetryTables = TelemetryTables(
    nodes: map<NodeId, NodeStatus>,
    assignments: set<Pair>,
    cursors: map<NodeId, nat>,
    events: map<EventKey, StoredEvent>,
    hourly: map<Bucket, Totals>,
    daily: map<Bucket, Totals>,
    detailed: bool,
    detailedDays: nat)

  datatype TelemetryError =
    | InvalidBatch | UnknownNode | RevokedNode | SequenceGap(expected: nat) | SequenceExhausted
    | ClockSkew | UserNotAssigned | TelemetryConstraint | InvalidPolicy

  /** Committed tables and the acknowledged sequence; the last error is reported after the commit. */
  datatype Ingested = Ingested(tables: TelemetryTables, reply: Outcome<nat, TelemetryError>)

  predicate Representable(c: Totals) {
    c.up <= MAX_I64 && c.down <= MAX_I64 && c.connections <= MAX_I64
  }

  /** 1 to 1000 events numbered first..last without gaps. */
  predicate ValidBatch(b: Batch) {
    && 0 < |b.events| <= MAX_BATCH_EVENTS && 0 < b.first && b.last == b.first + |b.events| - 1 && b.last <= MAX_I64
    && (forall i :: 0 <= i < |b.events| ==> b.events[i].sequence == b.first + i)
    && (forall i :: 0 <= i < |b.events| && b.events[i].kind.TrafficDelta? ==> Representable(b.events[i].kind.delta))
  }

  /** Start of the bucket of the given width that contains an instant. */
  function Aligned(at: int, width: nat): int
    requires width > 0
  {
    at - at % width
  }

  function Lookup(buckets: map<Bucket, Totals>, b: Bucket): Totals {
    if b in buckets then buckets[b] else ZERO
  }

  /** Insert or add; a negative start or a sum beyond 64 bits violates the column types. */
  function Upsert(buckets: map<Bucket, Totals>, b: Bucket,
                  delta: Totals): Outcome<map<Bucket, Totals>, TelemetryError> {
    var sum := Plus(Lookup(buckets, b), delta);
    if b.start < 0 || !Representable(sum) then Err(TelemetryConstraint) else Ok(buckets[b := sum])
  }

  predicate NamesUser(k: Kind) {
    k.TrafficDelta? || k.Connection? || k.QuotaState?
  }

  function UserOf(k: Kind): UserId
    requires NamesUser(k)
  {
    match k
    case TrafficDelta(u, _) => u
    case Connection(u, _) => u
    case QuotaState(u) => u
  }

  function Persist(t: TelemetryTables, n: NodeId, e: Event, now: Time): Outcome<TelemetryTables, TelemetryError> {
    if e.occurredAt > now + DAY then Err(ClockSkew)
    else if NamesUser(e.kind) && Pair(UserOf(e.kind), n) !in t.assignments then Err(UserNotAssigned)
    else if EventKey(n, e.sequence) in t.events then Err(TelemetryConstraint)
    else
      var stored := t.(events := t.events[EventKey(n, e.sequence) := StoredEvent(e, now, !e.kind.Connection?
          || t.detailed)]);
      if !e.kind.TrafficDelta? then Ok(stored)
      else
        var hourly :- Upsert(t.hourly, Bucket(e.kind.user, n, Aligned(e.occurredAt, HOUR)), e.kind.delta);
        var daily :- Upsert(t.daily, Bucket(e.kind.user, n, Aligned(e.occurredAt, DAY)), e.kind.delta);
        Ok(stored.(hourly := hourly, daily := daily))
  }

  function PersistAll(t: TelemetryTables, n: NodeId, events: seq<Event>,
                      now: Time): Outcome<TelemetryTables, TelemetryError>
    decreases |events|
  {
    if events == [] then Ok(t)
    else
      var next :- Persist(t, n, events[0], now);
      PersistAll(next, n, events[1..], now)
  }

  function Acknowledged(t: TelemetryTables, n: NodeId): nat {
    if n in t.cursors then t.cursors[n] else 0
  }

  function Acknowledge(sequence: nat): Outcome<nat, TelemetryError> {
    if sequence >= MAX_I64 then Err(SequenceExhausted) else Ok(sequence)
  }

  function Ingest(t: TelemetryTables, n: NodeId, b: Batch, now: Time): Ingested {
    if !ValidBatch(b) then Ingested(t, Err(InvalidBatch))
    else if n !in t.nodes then Ingested(t, Err(UnknownNode))
    else if t.nodes[n] == NodeDisabled || t.nodes[n] == NodeRevoked then Ingested(t, Err(RevokedNode))
    else
      var known := t.(cursors := t.cursors[n := Acknowledged(t, n)]);
      if b.last <= Acknowledged(t, n) then Ingested(known, Acknowledge(Acknowledged(t, n)))
      else if b.first != Acknowledged(t, n) + 1 then Ingested(t, Err(SequenceGap(Acknowledged(t, n) + 1)))
      else match PersistAll(known, n, b.events, now)
        case Err(e) => Ingested(t, Err(e))
        case Ok(stored) => Ingested(stored.(cursors := stored.cursors[n := b.last]), Acknowledge(b.last))
  }

  // ----- retention -----

  function Cutoff(now: Time, days: nat, width: nat): int
    requires width > 0
  {
    Aligned(now - days * DAY, width)
  }

  function DropBefore(buckets: map<Bucket, Totals>, cutoff: int): map<Bucket, Totals> {
    map b | b in buckets && b.start >= cutoff :: buckets[b]
  }

  predicate Retained(detailedDays: nat, s: StoredEvent, now: Time) {
    match s.event.kind
    case Connection(_, _) => s.receivedAt >= now - detailedDays * DAY
    case TrafficDelta(_, _) => s.receivedAt >= now - HOURLY_RETENTION_DAYS * DAY
    case CollectionStatus(_) => s.receivedAt >= now - HEALTH_RETENTION_DAYS * DAY
    case QuotaState(_) => s.receivedAt >= now - HEALTH_RETENTION_DAYS * DAY
  }

  function Retain(t: TelemetryTables, now: Time): TelemetryTables {
    t.(events := map k | k in t.events && Retained(t.detailedDays, t.events[k], now) :: t.events[k],
       hourly := DropBefore(t.hourly, Cutoff(now, HOURLY_RETENTION_DAYS, HOUR)),
       daily := DropBefore(t.daily, Cutoff(now, DAILY_RETENTION_DAYS, DAY)))
  }

  // ----- runs with history -----

  /** An accepted event, with the time and the collection policy of its acceptance. */
  datatype Accepted = Accepted(node: NodeId, event: Event, receivedAt: Time, detailed: bool)

  /** A retention pass after `at` accepted events. */
  datatype Pass = Pass(at: nat, now: Time, detailedDays: nat)

  datatype World = World(tables: TelemetryTables, ledger: seq<Accepted>, passes: seq<Pass>)

  const EmptyTelemetry: TelemetryTables := TelemetryTables(map[], {}, map[], map[], map[], map[], false, 30)
  const EmptyWorld: World := World(EmptyTelemetry, [], [])

  datatype Step =
    | DoNode(node: NodeId, status: NodeStatus)
    | DoAssign(user: UserId, node: NodeId)
    | DoPolicy(detailed: bool, days: nat)
    | DoIngest(node: NodeId, batch: Batch, now: Time)
    | DoRetain(now: Time)

  function Entries(n: NodeId, events: seq<Event>, now: Time, detailed: bool): seq<Accepted> {
    seq(|events|, i requires 0 <= i < |events| => Accepted(n, events[i], now, detailed))
  }

  /** Whether an ingestion stores its batch (as opposed to acknowledging a duplicate or failing). */
  predicate Stores(t: TelemetryTables, n: NodeId, b: Batch, now: Time) {
    && ValidBatch(b) && n in t.nodes && t.nodes[n] != NodeDisabled && t.nodes[n] != NodeRevoked
    && b.first == Acknowledged(t, n) + 1
    && PersistAll(t.(cursors := t.cursors[n := Acknowledged(t, n)]), n, b.events, now).Ok?
  }

  function After(w: World, step: Step): World {
    match step
    case DoNode(n, status) => w.(tables := w.tables.(nodes := w.tables.nodes[n := status]))
    case DoAssign(u, n) => w.(tables := w.tables.(assignments := w.tables.assignments + {Pair(u, n)}))
    case DoPolicy(detailed, days) =>
      if 1 <= days <= 90 then w.(tables := w.tables.(detailed := detailed, detailedDays := days)) else w
    case DoIngest(n, b, now) =>
      w.(tables := Ingest(w.tables, n, b, now).tables,
         ledger := if Stores(w.tables, n, b, now) then w.ledger + Entries(n, b.events, now, w.tables.detailed)
                   else w.ledger)
    case DoRetain(now) =>
      World(Retain(w.tables, now), w.ledger, w.passes + [Pass(|w.ledger|, now, w.tables.detailedDays)])
  }

  function Run(w: World, steps: seq<Step>): World
    decreases |steps|
  {
    if steps == [] then w else Run(After(w, steps[0]), steps[1..])
  }
}
