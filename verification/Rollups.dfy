/** What every run of ingestion and retention keeps: events 1..acknowledged are accepted exactly once, every
    bucket is the sum of the deltas accepted since the last pass that dropped it, and the stored raw events
    are the accepted ones that every later pass retained. */
module Rollups {
  import opened Domain
  import opened Plane
  import opened Telemetry

  // ----- sums over the ledger -----

  /** What one accepted event adds to a bucket of the given width. */
  function Contribution(a: Accepted, b: Bucket, width: nat): Totals
    requires width > 0
  {
    if a.event.kind.TrafficDelta? && a.event.kind.user == b.user && a.node == b.node
       && Aligned(a.event.occurredAt, width) == b.start
    then a.event.kind.delta else ZERO
  }

  function Sum(ledger: seq<Accepted>, b: Bucket, width: nat): Totals
    requires width > 0
  {
    if ledger == [] then ZERO
    else Plus(Sum(ledger[..|ledger| - 1], b, width), Contribution(ledger[|ledger| - 1], b, width))
  }

  lemma SumAppend(ledger: seq<Accepted>, a: Accepted, b: Bucket, width: nat)
    requires width > 0
    ensures Sum(ledger + [a], b, width) == Plus(Sum(ledger, b, width), Contribution(a, b, width))
  {
  }

  /** The accepted events of one node, in order. */
  function OfNode(ledger: seq<Accepted>, n: NodeId): seq<Event> {
    if ledger == [] then []
    else OfNode(ledger[..|ledger| - 1], n) + (if ledger[|ledger| - 1].node == n then [ledger[|ledger| - 1].event]
        else [])
  }

  lemma OfNodeAppend(ledger: seq<Accepted>, a: Accepted, n: NodeId)
    ensures OfNode(ledger + [a], n) == OfNode(ledger, n) + (if a.node == n then [a.event] else [])
  {
  }

  // ----- what retention passes took away -----

  predicate BucketWidth(width: nat) {
    width == HOUR || width == DAY
  }

  /** The pass deletes the buckets that start before this. */
  function Cut(p: Pass, width: nat): int {
    if width == HOUR then Cutoff(p.now, HOURLY_RETENTION_DAYS, HOUR) else Cutoff(p.now, DAILY_RETENTION_DAYS, DAY)
  }

  /** Events accepted before the last pass that deleted buckets starting at `start`. */
  function LastDrop(passes: seq<Pass>, start: int, width: nat): nat {
    if passes == [] then 0
    else if start < Cut(passes[|passes| - 1], width) then passes[|passes| - 1].at
    else LastDrop(passes[..|passes| - 1], start, width)
  }

  lemma LastDropAppend(passes: seq<Pass>, p: Pass, start: int, width: nat)
    ensures LastDrop(passes + [p], start, width) == if start < Cut(p, width) then p.at
            else LastDrop(passes, start, width)
  {
  }

  function Stored(a: Accepted): StoredEvent {
    StoredEvent(a.event, a.receivedAt, !a.event.kind.Connection? || a.detailed)
  }

  function KeyOf(a: Accepted): EventKey {
    EventKey(a.node, a.event.sequence)
  }

  /** Every pass after the i-th acceptance retained it. */
  ghost predicate Survives(passes: seq<Pass>, i: int, a: Accepted) {
    forall p :: p in passes && i < p.at ==> Retained(p.detailedDays, Stored(a), p.now)
  }

  // ----- invariants -----

  ghost predicate AgreeAt(buckets: map<Bucket, Totals>, ledger: seq<Accepted>, passes: seq<Pass>, width: nat, b: Bucket)
    requires width > 0
  {
    && LastDrop(passes, b.start, width) <= |ledger|
    && Lookup(buckets, b) == Sum(ledger[LastDrop(passes, b.start, width)..], b, width)
  }

  /** Every bucket is the sum of the deltas accepted since the last pass that dropped it. */
  ghost predicate Agree(buckets: map<Bucket, Totals>, ledger: seq<Accepted>, passes: seq<Pass>, width: nat)
    requires width > 0
  {
    forall b: Bucket :: AgreeAt(buckets, ledger, passes, width, b)
  }

  predicate OnGrid(start: int, width: nat)
    requires width > 0
  {
    start % width == 0
  }

  /** Buckets start at multiples of their width and not before the epoch. */
  ghost predicate WellPlaced(buckets: map<Bucket, Totals>, width: nat)
    requires width > 0
  {
    forall b :: b in buckets ==> b.start >= 0 && OnGrid(b.start, width)
  }

  /** The i-th acceptance is what is stored under the key. */
  ghost predicate Backs(ledger: seq<Accepted>, passes: seq<Pass>, i: int, k: EventKey) {
    0 <= i < |ledger| && KeyOf(ledger[i]) == k && Survives(passes, i, ledger[i])
  }

  /** The raw events are exactly the accepted ones that survived. */
  ghost predicate RawAgree(events: map<EventKey, StoredEvent>, ledger: seq<Accepted>, passes: seq<Pass>) {
    && (forall k :: k in events ==> exists i :: Backs(ledger, passes, i, k))
    && (forall i, k :: Backs(ledger, passes, i, k) ==> k in events && events[k] == Stored(ledger[i]))
  }

  ghost predicate PassesBehind(passes: seq<Pass>, count: nat) {
    forall p :: p in passes ==> p.at <= count
  }

  /** The node's accepted events are numbered 1, 2, ... */
  ghost predicate Numbered(events: seq<Event>) {
    forall i :: 0 <= i < |events| ==> events[i].sequence == i + 1
  }

  ghost predicate Counted(w: World, n: NodeId) {
    |OfNode(w.ledger, n)| == Acknowledged(w.tables, n) && Numbered(OfNode(w.ledger, n))
  }

  /** Stored raw events never run ahead of the cursor. */
  ghost predicate EventsBehind(t: TelemetryTables) {
    forall k :: k in t.events ==> k.sequence <= Acknowledged(t, k.node)
  }

  /** The part of the invariant about tables and history. */
  ghost predicate Rolled(t: TelemetryTables, ledger: seq<Accepted>, passes: seq<Pass>) {
    && Agree(t.hourly, ledger, passes, HOUR) && Agree(t.daily, ledger, passes, DAY)
    && WellPlaced(t.hourly, HOUR) && WellPlaced(t.daily, DAY)
    && RawAgree(t.events, ledger, passes) && PassesBehind(passes, |ledger|)
  }

  ghost predicate Inv(w: World) {
    Rolled(w.tables, w.ledger, w.passes) && (forall n :: Counted(w, n)) && EventsBehind(w.tables)
  }

  // ----- one event -----

  lemma UpsertAgrees(buckets: map<Bucket, Totals>, ledger: seq<Accepted>, passes: seq<Pass>, width: nat, a: Accepted,
                     q: map<Bucket, Totals>)
    requires BucketWidth(width) && Agree(buckets, ledger, passes, width) && WellPlaced(buckets, width)
    requires a.event.kind.TrafficDelta?
    requires Upsert(buckets, Bucket(a.event.kind.user, a.node, Aligned(a.event.occurredAt, width)), a.event.kind.delta)
             == Ok(q)
    ensures Agree(q, ledger + [a], passes, width) && WellPlaced(q, width)
  {
    var key := Bucket(a.event.kind.user, a.node, Aligned(a.event.occurredAt, width));
    AlignedIsMultiple(a.event.occurredAt, width);
    UpsertPlaced(buckets, width, key, a.event.kind.delta, q);
    hide WellPlaced, Upsert, AgreeAt, Aligned, OnGrid;
    forall b: Bucket ensures AgreeAt(q, ledger + [a], passes, width, b) {
      UpsertAgreesAt(buckets, ledger, passes, width, a, q, b);
    }
  }

  lemma UpsertAgreesAt(buckets: map<Bucket, Totals>, ledger: seq<Accepted>, passes: seq<Pass>, width: nat, a: Accepted,
                       q: map<Bucket, Totals>, b: Bucket)
    requires width > 0 && a.event.kind.TrafficDelta? && AgreeAt(buckets, ledger, passes, width, b)
    requires Upsert(buckets, Bucket(a.event.kind.user, a.node, Aligned(a.event.occurredAt, width)), a.event.kind.delta)
             == Ok(q)
    ensures AgreeAt(q, ledger + [a], passes, width, b)
  {
    hide Upsert, Contribution, Lookup, Plus, Sum, Aligned, LastDrop;
    var key := Bucket(a.event.kind.user, a.node, Aligned(a.event.occurredAt, width));
    SinceAppend(ledger, a, passes, width, b);
    UpsertAt(buckets, key, a.event.kind.delta, b, q);
    ContributionAt(a, b, width);
    PlusZero(Lookup(buckets, b));
  }

  /** A new acceptance counts after every pass so far. */
  lemma SinceAppend(ledger: seq<Accepted>, a: Accepted, passes: seq<Pass>, width: nat, b: Bucket)
    requires width > 0 && LastDrop(passes, b.start, width) <= |ledger|
    ensures var k := LastDrop(passes, b.start, width);
            Sum((ledger + [a])[k..], b, width) == Plus(Sum(ledger[k..], b, width), Contribution(a, b, width))
  {
    hide Sum, Contribution, LastDrop;
    var k := LastDrop(passes, b.start, width);
    assert (ledger + [a])[k..] == ledger[k..] + [a];
    SumAppend(ledger[k..], a, b, width);
  }

  lemma UpsertPlaced(buckets: map<Bucket, Totals>, width: nat, key: Bucket, delta: Totals, q: map<Bucket, Totals>)
    requires width > 0 && WellPlaced(buckets, width) && OnGrid(key.start, width) && Upsert(buckets, key, delta) == Ok(q)
    ensures WellPlaced(q, width)
  {
  }

  lemma UpsertAt(buckets: map<Bucket, Totals>, key: Bucket, delta: Totals, b: Bucket, q: map<Bucket, Totals>)
    requires Upsert(buckets, key, delta) == Ok(q)
    ensures Lookup(q, b) == if b == key then Plus(Lookup(buckets, b), delta) else Lookup(buckets, b)
  {
  }

  lemma ContributionAt(a: Accepted, b: Bucket, width: nat)
    requires width > 0 && a.event.kind.TrafficDelta?
    ensures var key := Bucket(a.event.kind.user, a.node, Aligned(a.event.occurredAt, width));
            Contribution(a, b, width) == if b == key then a.event.kind.delta else ZERO
  {
  }

  lemma PlusZero(x: Totals)
    ensures Plus(x, ZERO) == x
  {
  }

  lemma AlignedIsMultiple(at: int, width: nat)
    requires BucketWidth(width)
    ensures OnGrid(Aligned(at, width), width) && Aligned(at, width) <= at < Aligned(at, width) + width
  {
  }

  lemma OtherAgrees(buckets: map<Bucket, Totals>, ledger: seq<Accepted>, passes: seq<Pass>, width: nat, a: Accepted)
    requires width > 0 && Agree(buckets, ledger, passes, width) && !a.event.kind.TrafficDelta?
    ensures Agree(buckets, ledger + [a], passes, width)
  {
    hide Sum, Aligned, Lookup, LastDrop;
    forall b: Bucket ensures AgreeAt(buckets, ledger + [a], passes, width, b) {
      assert AgreeAt(buckets, ledger, passes, width, b);
      SinceAppend(ledger, a, passes, width, b);
      assert Contribution(a, b, width) == ZERO;
      PlusZero(Sum(ledger[LastDrop(passes, b.start, width)..], b, width));
    }
  }

  lemma RawAppend(events: map<EventKey, StoredEvent>, ledger: seq<Accepted>, passes: seq<Pass>, a: Accepted)
    requires RawAgree(events, ledger, passes) && PassesBehind(passes, |ledger|) && KeyOf(a) !in events
    ensures RawAgree(events[KeyOf(a) := Stored(a)], ledger + [a], passes)
  {
    hide Survives;
    var all := ledger + [a];
    NewSurvives(passes, |ledger|, a);
    assert Backs(all, passes, |ledger|, KeyOf(a));
    forall k | k in events ensures exists i :: Backs(all, passes, i, k) {
      var i :| Backs(ledger, passes, i, k);
      assert Backs(all, passes, i, k);
    }
    forall i, k | Backs(all, passes, i, k)
      ensures k in events[KeyOf(a) := Stored(a)] && events[KeyOf(a) := Stored(a)][k] == Stored(all[i])
    {
      if i < |ledger| {
        assert Backs(ledger, passes, i, k);
      }
    }
  }

  lemma NewSurvives(passes: seq<Pass>, i: nat, a: Accepted)
    requires PassesBehind(passes, i)
    ensures Survives(passes, i, a)
  {
  }

  lemma PersistRolls(t: TelemetryTables, ledger: seq<Accepted>, passes: seq<Pass>, n: NodeId, e: Event, now: Time,
                     q: TelemetryTables)
    requires Rolled(t, ledger, passes) && Persist(t, n, e, now) == Ok(q)
    ensures Rolled(q, ledger + [Accepted(n, e, now, t.detailed)], passes) && q.detailed == t.detailed
  {
    hide Agree, WellPlaced, Upsert, RawAgree;
    var a := Accepted(n, e, now, t.detailed);
    RawAppend(t.events, ledger, passes, a);
    if e.kind.TrafficDelta? {
      UpsertAgrees(t.hourly, ledger, passes, HOUR, a, q.hourly);
      UpsertAgrees(t.daily, ledger, passes, DAY, a, q.daily);
    } else {
      OtherAgrees(t.hourly, ledger, passes, HOUR, a);
      OtherAgrees(t.daily, ledger, passes, DAY, a);
    }
  }

  lemma PersistFrame(t: TelemetryTables, n: NodeId, e: Event, now: Time, q: TelemetryTables)
    requires Persist(t, n, e, now) == Ok(q)
    ensures q.nodes == t.nodes && q.assignments == t.assignments && q.cursors == t.cursors
    ensures q.events == t.events[EventKey(n, e.sequence) := StoredEvent(e, now, !e.kind.Connection? || t.detailed)]
  {
  }

  lemma {:induction false} PersistAllRolls(t: TelemetryTables, ledger: seq<Accepted>, passes: seq<Pass>, n: NodeId,
                                           events: seq<Event>, now: Time, q: TelemetryTables)
    requires Rolled(t, ledger, passes) && PersistAll(t, n, events, now) == Ok(q)
    ensures Rolled(q, ledger + Entries(n, events, now, t.detailed), passes) && q.cursors == t.cursors
    ensures forall k :: k in q.events ==>
              k in t.events || (k.node == n && exists i :: 0 <= i < |events| && events[i].sequence == k.sequence)
    decreases |events|
  {
    hide Rolled, Persist;
    if events == [] {
      assert ledger + Entries(n, events, now, t.detailed) == ledger;
    } else {
      var m := Persist(t, n, events[0], now).value;
      var a := Accepted(n, events[0], now, t.detailed);
      PersistRolls(t, ledger, passes, n, events[0], now, m);
      PersistFrame(t, n, events[0], now, m);
      PersistAllRolls(m, ledger + [a], passes, n, events[1..], now, q);
      assert ledger + [a] + Entries(n, events[1..], now, t.detailed) == ledger + Entries(n, events, now, t.detailed);
      forall k | k in q.events && k !in t.events
        ensures k.node == n && exists i :: 0 <= i < |events| && events[i].sequence == k.sequence
      {
        if k in m.events {
          assert events[0].sequence == k.sequence;
        } else {
          var i :| 0 <= i < |events[1..]| && events[1..][i].sequence == k.sequence;
          assert events[i + 1].sequence == k.sequence;
        }
      }
    }
  }

  // ----- one batch -----

  lemma EntriesSplit(n: NodeId, events: seq<Event>, now: Time, detailed: bool)
    requires events != []
    ensures Entries(n, events, now, detailed)
            == Entries(n, events[..|events| - 1], now, detailed) + [Accepted(n, events[|events| - 1], now, detailed)]
  {
  }

  lemma {:induction false} OfNodeEntries(ledger: seq<Accepted>, n: NodeId, events: seq<Event>, now: Time,
                                         detailed: bool, m: NodeId)
    ensures OfNode(ledger + Entries(n, events, now, detailed), m) == OfNode(ledger, m) + (if m == n then events else [])
    decreases |events|
  {
    hide OfNode;
    if events == [] {
      assert ledger + Entries(n, events, now, detailed) == ledger;
    } else {
      var last := |events| - 1;
      var some := Entries(n, events[..last], now, detailed);
      var a := Accepted(n, events[last], now, detailed);
      OfNodeEntries(ledger, n, events[..last], now, detailed, m);
      EntriesSplit(n, events, now, detailed);
      hide Entries;
      assert ledger + (some + [a]) == ledger + some + [a];
      OfNodeAppend(ledger + some, a, m);
      assert events == events[..last] + [events[last]];
    }
  }

  lemma IngestCases(w: World, n: NodeId, b: Batch, now: Time)
    ensures var q := Ingest(w.tables, n, b, now).tables;
            var known := w.tables.(cursors := w.tables.cursors[n := Acknowledged(w.tables, n)]);
            if Stores(w.tables, n, b, now)
            then exists s :: PersistAll(known, n, b.events, now) == Ok(s) && q == s.(cursors := s.cursors[n := b.last])
            else q == w.tables.(cursors := q.cursors) && forall m :: Acknowledged(q, m) == Acknowledged(w.tables, m)
  {
  }

  lemma IngestKeeps(w: World, n: NodeId, b: Batch, now: Time)
    requires Inv(w)
    ensures Inv(After(w, DoIngest(n, b, now)))
  {
    hide Rolled, PersistAll, Ingest;
    var z := After(w, DoIngest(n, b, now));
    IngestCases(w, n, b, now);
    if Stores(w.tables, n, b, now) {
      var known := w.tables.(cursors := w.tables.cursors[n := Acknowledged(w.tables, n)]);
      var s := PersistAll(known, n, b.events, now).value;
      RolledIgnoresCursors(w.tables, known, w.ledger, w.passes);
      PersistAllRolls(known, w.ledger, w.passes, n, b.events, now, s);
      RolledIgnoresCursors(s, z.tables, z.ledger, w.passes);
      StoredCounts(w, n, b, now, s, z);
    } else {
      RolledIgnoresCursors(w.tables, z.tables, w.ledger, w.passes);
      forall m ensures Counted(z, m) {
        assert Counted(w, m);
      }
    }
  }

  lemma RolledIgnoresCursors(t: TelemetryTables, q: TelemetryTables, ledger: seq<Accepted>, passes: seq<Pass>)
    requires Rolled(t, ledger, passes) && q.hourly == t.hourly && q.daily == t.daily && q.events == t.events
    ensures Rolled(q, ledger, passes)
  {
  }

  lemma StoredCounts(w: World, n: NodeId, b: Batch, now: Time, s: TelemetryTables, z: World)
    requires (forall m :: Counted(w, m)) && EventsBehind(w.tables) && ValidBatch(b)
             && b.first == Acknowledged(w.tables, n) + 1
    requires s.cursors == w.tables.cursors[n := Acknowledged(w.tables, n)]
    requires forall k :: k in s.events ==>
               || k in w.tables.events
               || (k.node == n && exists i :: 0 <= i < |b.events| && b.events[i].sequence == k.sequence)
    requires z.tables == s.(cursors := s.cursors[n := b.last])
    requires z.ledger == w.ledger + Entries(n, b.events, now, w.tables.detailed)
    ensures (forall m :: Counted(z, m)) && EventsBehind(z.tables)
  {
    hide OfNode, Entries;
    forall m ensures Counted(z, m) {
      StoredCount(w, n, b, now, z, m);
    }
    forall k | k in z.tables.events ensures k.sequence <= Acknowledged(z.tables, k.node) {
      if k in w.tables.events {
        assert k.sequence <= Acknowledged(w.tables, k.node);
      } else {
        var i :| 0 <= i < |b.events| && b.events[i].sequence == k.sequence;
      }
    }
  }

  lemma StoredCount(w: World, n: NodeId, b: Batch, now: Time, z: World, m: NodeId)
    requires Counted(w, m) && ValidBatch(b) && b.first == Acknowledged(w.tables, n) + 1
    requires Acknowledged(z.tables, m) == if m == n then b.last else Acknowledged(w.tables, m)
    requires z.ledger == w.ledger + Entries(n, b.events, now, w.tables.detailed)
    ensures Counted(z, m)
  {
    hide OfNode, Entries;
    OfNodeEntries(w.ledger, n, b.events, now, w.tables.detailed, m);
  }

  // ----- retention -----

  lemma DropAgrees(buckets: map<Bucket, Totals>, ledger: seq<Accepted>, passes: seq<Pass>, p: Pass, width: nat)
    requires BucketWidth(width) && Agree(buckets, ledger, passes, width) && WellPlaced(buckets, width)
             && p.at == |ledger|
    ensures Agree(DropBefore(buckets, Cut(p, width)), ledger, passes + [p], width)
    ensures WellPlaced(DropBefore(buckets, Cut(p, width)), width)
  {
    hide Cut, LastDrop, Sum;
    forall b: Bucket ensures AgreeAt(DropBefore(buckets, Cut(p, width)), ledger, passes + [p], width, b) {
      assert AgreeAt(buckets, ledger, passes, width, b);
      LastDropAppend(passes, p, b.start, width);
      assert ledger[|ledger|..] == [];
      SumOfNothing(b, width);
    }
  }

  lemma SumOfNothing(b: Bucket, width: nat)
    requires width > 0
    ensures Sum([], b, width) == ZERO
  {
  }

  lemma RawRetained(events: map<EventKey, StoredEvent>, ledger: seq<Accepted>, passes: seq<Pass>, p: Pass)
    requires RawAgree(events, ledger, passes) && p.at == |ledger|
    ensures RawAgree(map k | k in events && Retained(p.detailedDays, events[k], p.now) ::
            events[k], ledger, passes + [p])
  {
    hide Retained, Survives;
    var kept := map k | k in events && Retained(p.detailedDays, events[k], p.now) :: events[k];
    forall i, k
      ensures Backs(ledger, passes + [p], i, k) <==>
              Backs(ledger, passes, i, k) && Retained(p.detailedDays, Stored(ledger[i]), p.now)
    {
      if 0 <= i < |ledger| {
        SurvivesAppend(passes, p, i, ledger[i]);
      }
    }
    forall k | k in kept ensures exists i :: Backs(ledger, passes + [p], i, k) {
      var i :| Backs(ledger, passes, i, k);
      assert Backs(ledger, passes + [p], i, k);
    }
  }

  lemma SurvivesAppend(passes: seq<Pass>, p: Pass, i: int, a: Accepted)
    requires i < p.at
    ensures Survives(passes + [p], i, a) <==> Survives(passes, i, a) && Retained(p.detailedDays, Stored(a), p.now)
  {
    hide Retained;
    if Survives(passes + [p], i, a) {
      forall x | x in passes && i < x.at ensures Retained(x.detailedDays, Stored(a), x.now) {
        assert x in passes + [p];
      }
      assert p in passes + [p];
    }
  }

  lemma RetainKeeps(w: World, now: Time)
    requires Inv(w)
    ensures Inv(After(w, DoRetain(now)))
  {
    hide Agree, WellPlaced, DropBefore, Cutoff, RawAgree, Retained;
    var p := Pass(|w.ledger|, now, w.tables.detailedDays);
    DropAgrees(w.tables.hourly, w.ledger, w.passes, p, HOUR);
    DropAgrees(w.tables.daily, w.ledger, w.passes, p, DAY);
    RawRetained(w.tables.events, w.ledger, w.passes, p);
    var z := After(w, DoRetain(now));
    forall m ensures Counted(z, m) {
      assert Counted(w, m);
    }
  }

  // ----- runs -----

  lemma StepKeeps(w: World, step: Step)
    requires Inv(w)
    ensures Inv(After(w, step))
  {
    match step {
      case DoIngest(n, b, now) => IngestKeeps(w, n, b, now);
      case DoRetain(now) => RetainKeeps(w, now);
      case _ =>
        var z := After(w, step);
        RolledIgnoresCursors(w.tables, z.tables, w.ledger, w.passes);
        hide Rolled;
        forall m ensures Counted(z, m) {
          assert Counted(w, m);
        }
    }
  }

  lemma {:induction false} RunKeeps(w: World, steps: seq<Step>)
    requires Inv(w)
    ensures Inv(Run(w, steps))
    decreases |steps|
  {
    hide Inv, After;
    if steps != [] {
      StepKeeps(w, steps[0]);
      RunKeeps(After(w, steps[0]), steps[1..]);
    }
  }

  lemma EmptyIsInvariant()
    ensures Inv(EmptyWorld)
  {
  }

  lemma Reachable(steps: seq<Step>)
    ensures Inv(Run(EmptyWorld, steps))
  {
    hide Inv, Run;
    EmptyIsInvariant();
    RunKeeps(EmptyWorld, steps);
  }
}
