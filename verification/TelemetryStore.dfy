/** The telemetry tables as the server changes them: the ingestion loop and the retention deletes. */
module TelemetryStore {
  import opened Domain
  import opened Plane
  import opened Telemetry

  class TelemetryStore {
    var nodes: map<NodeId, NodeStatus>
    var assignments: set<Pair>
    var cursors: map<NodeId, nat>
    var events: map<EventKey, StoredEvent>
    var hourly: map<Bucket, Totals>
    var daily: map<Bucket, Totals>
    var detailed: bool
    var detailedDays: nat

    function View(): TelemetryTables
      reads this
    {
      TelemetryTables(nodes, assignments, cursors, events, hourly, daily, detailed, detailedDays)
    }

    constructor ()
      ensures View() == EmptyTelemetry
    {
      nodes, assignments, cursors, events := map[], {}, map[], map[];
      hourly, daily, detailed, detailedDays := map[], map[], false, 30;
    }

    /** Abort: give back the tables as they were. */
    method Rollback(t: TelemetryTables)
      modifies this
      ensures View() == t
    {
      nodes, assignments, cursors, events := t.nodes, t.assignments, t.cursors, t.events;
      hourly, daily, detailed, detailedDays := t.hourly, t.daily, t.detailed, t.detailedDays;
    }

    /** Store one event and add a traffic delta to its hour and its day. */
    method PersistEvent(n: NodeId, e: Event, now: Time) returns (r: Outcome<bool, TelemetryError>)
      modifies this`events, this`hourly, this`daily
      ensures var spec := Persist(old(View()), n, e, now);
              && (r.Ok? <==> spec.Ok?) && (r.Ok? ==> View() == spec.value) && (r.Err? ==> r.error == spec.error)
    {
      if e.occurredAt > now + DAY {
        return Err(ClockSkew);
      }
      if NamesUser(e.kind) && Pair(UserOf(e.kind), n) !in assignments {
        return Err(UserNotAssigned);
      }
      if EventKey(n, e.sequence) in events {
        return Err(TelemetryConstraint);
      }
      events := events[EventKey(n, e.sequence) := StoredEvent(e, now, !e.kind.Connection? || detailed)];
      if e.kind.TrafficDelta? {
        var hours := Upsert(hourly, Bucket(e.kind.user, n, Aligned(e.occurredAt, HOUR)), e.kind.delta);
        if hours.Err? {
          return Err(hours.error);
        }
        hourly := hours.value;
        var days := Upsert(daily, Bucket(e.kind.user, n, Aligned(e.occurredAt, DAY)), e.kind.delta);
        if days.Err? {
          return Err(days.error);
        }
        daily := days.value;
      }
      return Ok(true);
    }

    /** Persist the events of a batch one by one. */
    method PersistBatch(n: NodeId, batch: seq<Event>, now: Time) returns (r: Outcome<bool, TelemetryError>)
      modifies this`events, this`hourly, this`daily
      ensures var spec := PersistAll(old(View()), n, batch, now);
              && (r.Ok? <==> spec.Ok?) && (r.Ok? ==> View() == spec.value) && (r.Err? ==> r.error == spec.error)
    {
      hide Persist;
      assert batch[0..] == batch;
      for i := 0 to |batch|
        invariant PersistAll(old(View()), n, batch, now) == PersistAll(View(), n, batch[i..], now)
      {
        assert batch[i..][1..] == batch[i + 1..];
        r := PersistEvent(n, batch[i], now);
        if r.Err? {
          return;
        }
      }
      return Ok(true);
    }

    method IngestTelemetry(n: NodeId, b: Batch, now: Time) returns (reply: Outcome<nat, TelemetryError>)
      modifies this
      ensures Ingested(View(), reply) == Ingest(old(View()), n, b, now)
    {
      hide ValidBatch, PersistAll;
      var before := View();
      if !ValidBatch(b) {
        return Err(InvalidBatch);
      }
      if n !in nodes {
        return Err(UnknownNode);
      }
      if nodes[n] == NodeDisabled || nodes[n] == NodeRevoked {
        return Err(RevokedNode);
      }
      var acknowledged := if n in cursors then cursors[n] else 0;
      cursors := cursors[n := acknowledged];
      if b.last <= acknowledged {
        return Acknowledge(acknowledged);
      }
      if b.first != acknowledged + 1 {
        Rollback(before);
        return Err(SequenceGap(acknowledged + 1));
      }
      var stored := PersistBatch(n, b.events, now);
      if stored.Err? {
        Rollback(before);
        return Err(stored.error);
      }
      cursors := cursors[n := b.last];
      return Acknowledge(b.last);
    }

    /** Delete old raw events and the buckets that lie before the aligned cutoffs. */
    method EnforceRetention(now: Time)
      modifies this`events, this`hourly, this`daily
      ensures View() == Retain(old(View()), now)
    {
      events := map k | k in events && Retained(detailedDays, events[k], now) :: events[k];
      hourly := DropBefore(hourly, Cutoff(now, HOURLY_RETENTION_DAYS, HOUR));
      daily := DropBefore(daily, Cutoff(now, DAILY_RETENTION_DAYS, DAY));
    }
  }
}
