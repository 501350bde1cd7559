/** Main results about telemetry, over every run of batches (with duplicates, gaps and overlaps) and
    retention passes. */
module TelemetryTheorems {
  import opened Domain
  import opened Plane
  import opened Telemetry
  import opened Rollups

  // ----- exactly once -----

  /** The accepted events of a node are exactly those numbered 1 to its acknowledged sequence, in order. */
  lemma ExactlyOnce(steps: seq<Step>, n: NodeId)
    ensures var w := Run(EmptyWorld, steps);
            |OfNode(w.ledger, n)| == Acknowledged(w.tables, n) && Numbered(OfNode(w.ledger, n))
  {
    hide Run, Rolled;
    Reachable(steps);
    assert Counted(Run(EmptyWorld, steps), n);
  }

  /** Every batch the node sends is cut from one stream, in whatever order and however often. */
  ghost predicate CutFrom(steps: seq<Step>, n: NodeId, stream: seq<Event>) {
    forall i :: 0 <= i < |steps| ==> StepCutFrom(steps[i], n, stream)
  }

  ghost predicate StepCutFrom(step: Step, n: NodeId, stream: seq<Event>) {
    step.DoIngest? && step.node == n && ValidBatch(step.batch) ==>
      step.batch.last <= |stream| && step.batch.events == stream[step.batch.first - 1..step.batch.last]
  }

  /** Then the controller holds a prefix of that stream: nothing lost, repeated or reordered. */
  lemma StreamPrefix(steps: seq<Step>, n: NodeId, stream: seq<Event>)
    requires CutFrom(steps, n, stream)
    ensures var w := Run(EmptyWorld, steps);
            Acknowledged(w.tables, n) <= |stream| && OfNode(w.ledger, n) == stream[..Acknowledged(w.tables, n)]
  {
    StreamPrefixFrom(EmptyWorld, steps, n, stream);
  }

  ghost predicate HoldsPrefix(w: World, n: NodeId, stream: seq<Event>) {
    Acknowledged(w.tables, n) <= |stream| && OfNode(w.ledger, n) == stream[..Acknowledged(w.tables, n)]
  }

  lemma {:induction false} StreamPrefixFrom(w: World, steps: seq<Step>, n: NodeId, stream: seq<Event>)
    requires CutFrom(steps, n, stream) && HoldsPrefix(w, n, stream)
    ensures HoldsPrefix(Run(w, steps), n, stream)
    decreases |steps|
  {
    hide After, HoldsPrefix, StepCutFrom;
    if steps != [] {
      assert StepCutFrom(steps[0], n, stream);
      PrefixStep(w, steps[0], n, stream);
      assert CutFrom(steps[1..], n, stream);
      StreamPrefixFrom(After(w, steps[0]), steps[1..], n, stream);
    }
  }

  lemma PrefixStep(w: World, step: Step, n: NodeId, stream: seq<Event>)
    requires StepCutFrom(step, n, stream) && HoldsPrefix(w, n, stream)
    ensures HoldsPrefix(After(w, step), n, stream)
  {
    if step.DoIngest? {
      var b := step.batch;
      IngestCases(w, step.node, b, step.now);
      hide Ingest;
      if Stores(w.tables, step.node, b, step.now) {
        StoredCursors(w.tables, step.node, b, step.now);
        OfNodeEntries(w.ledger, step.node, b.events, step.now, w.tables.detailed, n);
        hide PersistAll, OfNode;
        if step.node == n {
          assert stream[..b.first - 1] + stream[b.first - 1..b.last] == stream[..b.last];
        }
      }
    } else {
      hide OfNode;
    }
  }

  lemma StoredCursors(t: TelemetryTables, n: NodeId, b: Batch, now: Time)
    requires Stores(t, n, b, now)
    ensures forall m :: Acknowledged(Ingest(t, n, b, now).tables, m) == if m == n then b.last else Acknowledged(t, m)
  {
    var known := t.(cursors := t.cursors[n := Acknowledged(t, n)]);
    var s := PersistAll(known, n, b.events, now).value;
    PersistAllFrame(known, n, b.events, now, s);
    hide PersistAll;
  }

  lemma {:induction false} PersistAllFrame(t: TelemetryTables, n: NodeId, events: seq<Event>, now: Time,
                                           q: TelemetryTables)
    requires PersistAll(t, n, events, now) == Ok(q)
    ensures q.cursors == t.cursors
    decreases |events|
  {
    hide Persist;
    if events != [] {
      var m := Persist(t, n, events[0], now).value;
      PersistFrame(t, n, events[0], now, m);
      PersistAllFrame(m, n, events[1..], now, q);
    }
  }

  /** A batch that was stored once is acknowledged whenever it comes again, after any further run, with the
      sequence reached by then, and changes nothing. */
  lemma RedeliveryChangesNothing(steps: seq<Step>, n: NodeId, b: Batch, now: Time, more: seq<Step>, later: Time)
    requires Stores(Run(EmptyWorld, steps).tables, n, b, now)
    ensures var w := Run(After(Run(EmptyWorld, steps), DoIngest(n, b, now)), more);
            && b.last <= Acknowledged(w.tables, n)
            && (n in w.tables.nodes && w.tables.nodes[n] != NodeDisabled && w.tables.nodes[n] != NodeRevoked ==>
                  Ingest(w.tables, n, b, later) == Ingested(w.tables, Acknowledge(Acknowledged(w.tables, n))))
  {
    hide Run, PersistAll;
    var z := After(Run(EmptyWorld, steps), DoIngest(n, b, now));
    var w := Run(z, more);
    StoredCursors(Run(EmptyWorld, steps).tables, n, b, now);
    StoredCursorRow(Run(EmptyWorld, steps).tables, n, b, now);
    hide Stores;
    CursorsGrow(z, more, n);
    if n in w.tables.nodes && w.tables.nodes[n] != NodeDisabled && w.tables.nodes[n] != NodeRevoked {
      AcknowledgedAgain(w.tables, n, b, later);
    }
  }

  lemma StoredCursorRow(t: TelemetryTables, n: NodeId, b: Batch, now: Time)
    requires Stores(t, n, b, now)
    ensures n in Ingest(t, n, b, now).tables.cursors && ValidBatch(b)
  {
    hide PersistAll;
  }

  lemma AcknowledgedAgain(t: TelemetryTables, n: NodeId, b: Batch, now: Time)
    requires ValidBatch(b) && n in t.nodes && t.nodes[n] != NodeDisabled && t.nodes[n] != NodeRevoked
    requires n in t.cursors && b.last <= Acknowledged(t, n)
    ensures Ingest(t, n, b, now) == Ingested(t, Acknowledge(Acknowledged(t, n)))
  {
    hide ValidBatch, PersistAll;
    assert t.cursors[n := Acknowledged(t, n)] == t.cursors;
  }

  /** No step takes an acknowledgement back. */
  lemma CursorStepGrows(w: World, step: Step, n: NodeId)
    ensures n in w.tables.cursors ==> n in After(w, step).tables.cursors
    ensures Acknowledged(w.tables, n) <= Acknowledged(After(w, step).tables, n)
  {
    if step.DoIngest? {
      IngestCases(w, step.node, step.batch, step.now);
      if Stores(w.tables, step.node, step.batch, step.now) {
        StoredCursors(w.tables, step.node, step.batch, step.now);
        var known := w.tables.(cursors := w.tables.cursors[step.node := Acknowledged(w.tables, step.node)]);
        PersistAllFrame(known, step.node, step.batch.events, step.now,
            PersistAll(known, step.node, step.batch.events, step.now).value);
      }
    }
  }

  lemma {:induction false} CursorsGrow(w: World, steps: seq<Step>, n: NodeId)
    ensures n in w.tables.cursors ==> n in Run(w, steps).tables.cursors
    ensures Acknowledged(w.tables, n) <= Acknowledged(Run(w, steps).tables, n)
    decreases |steps|
  {
    hide After;
    if steps != [] {
      CursorStepGrows(w, steps[0], n);
      CursorsGrow(After(w, steps[0]), steps[1..], n);
    }
  }

  /** The primary key of stored events never gets in the way: the next event's key is always free. */
  lemma NextEventIsNew(steps: seq<Step>, n: NodeId, sequence: nat)
    requires sequence > Acknowledged(Run(EmptyWorld, steps).tables, n)
    ensures EventKey(n, sequence) !in Run(EmptyWorld, steps).tables.events
  {
    hide Run, Rolled;
    Reachable(steps);
    assert EventsBehind(Run(EmptyWorld, steps).tables);
  }

  // ----- buckets -----

  function BucketsOf(t: TelemetryTables, width: nat): map<Bucket, Totals> {
    if width == HOUR then t.hourly else t.daily
  }

  /** None of the first k accepted events adds anything to the bucket. */
  ghost predicate NothingBefore(ledger: seq<Accepted>, k: nat, b: Bucket, width: nat)
    requires width > 0 && k <= |ledger|
  {
    forall i :: 0 <= i < k ==> Contribution(ledger[i], b, width) == ZERO
  }

  /** In every reachable state each hourly and daily bucket is the sum of the deltas accepted since the last
      pass that dropped it.  So it is the sum of all its deltas exactly when nothing accepted before that
      pass counted in it. */
  lemma BucketsAreExact(steps: seq<Step>, b: Bucket, width: nat)
    requires BucketWidth(width)
    ensures var w := Run(EmptyWorld, steps);
            var k := LastDrop(w.passes, b.start, width);
            && k <= |w.ledger|
            && Lookup(BucketsOf(w.tables, width), b) == Sum(w.ledger[k..], b, width)
            && (Lookup(BucketsOf(w.tables, width), b) == Sum(w.ledger, b, width) <==>
                   NothingBefore(w.ledger, k, b, width))
  {
    hide Run, Sum, Lookup, LastDrop, NothingBefore, WellPlaced, RawAgree;
    Reachable(steps);
    var w := Run(EmptyWorld, steps);
    assert AgreeAt(BucketsOf(w.tables, width), w.ledger, w.passes, width, b);
    SplitIsExact(w.ledger, LastDrop(w.passes, b.start, width), b, width);
  }

  lemma SplitIsExact(ledger: seq<Accepted>, k: nat, b: Bucket, width: nat)
    requires width > 0 && k <= |ledger|
    ensures Sum(ledger[k..], b, width) == Sum(ledger, b, width) <==> NothingBefore(ledger, k, b, width)
  {
    hide Sum, Plus, NothingBefore;
    assert ledger == ledger[..k] + ledger[k..];
    SumConcat(ledger[..k], ledger[k..], b, width);
    OnlyZeroAddsNothing(Sum(ledger[..k], b, width), Sum(ledger[k..], b, width));
    SumIsZero(ledger[..k], b, width);
    PrefixAddsNothing(ledger, k, b, width);
  }

  lemma PrefixAddsNothing(ledger: seq<Accepted>, k: nat, b: Bucket, width: nat)
    requires width > 0 && k <= |ledger|
    ensures NothingBefore(ledger[..k], k, b, width) <==> NothingBefore(ledger, k, b, width)
  {
    hide Contribution;
    forall i | 0 <= i < k ensures ledger[..k][i] == ledger[i] {
    }
    if NothingBefore(ledger[..k], k, b, width) {
      forall i | 0 <= i < k ensures Contribution(ledger[i], b, width) == ZERO {
        assert Contribution(ledger[..k][i], b, width) == ZERO;
      }
    }
  }

  lemma OnlyZeroAddsNothing(x: Totals, d: Totals)
    ensures d == Plus(x, d) <==> x == ZERO
  {
  }

  lemma {:induction false} SumConcat(x: seq<Accepted>, y: seq<Accepted>, b: Bucket, width: nat)
    requires width > 0
    ensures Sum(x + y, b, width) == Plus(Sum(x, b, width), Sum(y, b, width))
    decreases |y|
  {
    if y == [] {
      assert x + y == x;
      PlusZero(Sum(x, b, width));
    } else {
      var last := |y| - 1;
      hide Contribution, Sum, Plus;
      assert y == y[..last] + [y[last]];
      assert x + y == x + y[..last] + [y[last]];
      SumConcat(x, y[..last], b, width);
      SumAppend(x + y[..last], y[last], b, width);
      SumAppend(y[..last], y[last], b, width);
      PlusAssociates(Sum(x, b, width), Sum(y[..last], b, width), Contribution(y[last], b, width));
    }
  }

  lemma PlusAssociates(a: Totals, b: Totals, c: Totals)
    ensures Plus(Plus(a, b), c) == Plus(a, Plus(b, c))
  {
  }

  lemma {:induction false} SumIsZero(ledger: seq<Accepted>, b: Bucket, width: nat)
    requires width > 0
    ensures Sum(ledger, b, width) == ZERO <==> NothingBefore(ledger, |ledger|, b, width)
    decreases |ledger|
  {
    if ledger != [] {
      var last := |ledger| - 1;
      hide Contribution, Sum, Plus, NothingBefore;
      SumIsZero(ledger[..last], b, width);
      PrefixAddsNothing(ledger, last, b, width);
      NothingBeforeNext(ledger, last, b, width);
      assert ledger == ledger[..last] + [ledger[last]];
      SumAppend(ledger[..last], ledger[last], b, width);
      BothZero(Sum(ledger[..last], b, width), Contribution(ledger[last], b, width));
    }
  }

  lemma NothingBeforeNext(ledger: seq<Accepted>, k: nat, b: Bucket, width: nat)
    requires width > 0 && k < |ledger|
    ensures NothingBefore(ledger, k + 1, b, width) <==>
            NothingBefore(ledger, k, b, width) && Contribution(ledger[k], b, width) == ZERO
  {
    hide Contribution;
  }

  lemma BothZero(x: Totals, y: Totals)
    ensures Plus(x, y) == ZERO <==> x == ZERO && y == ZERO
  {
    var sum := Plus(x, y);
    assert sum.up == x.up + y.up && sum.down == x.down + y.down && sum.connections == x.connections + y.connections;
    if x.up == 0 && x.down == 0 && x.connections == 0 {
      assert x == Totals(0, 0, 0);
    }
    if y.up == 0 && y.down == 0 && y.connections == 0 {
      assert y == Totals(0, 0, 0);
    }
  }

  /** No pass so far deleted buckets starting at `start`. */
  ghost predicate NeverDropped(passes: seq<Pass>, start: int, width: nat) {
    forall p :: p in passes ==> Cut(p, width) <= start
  }

  lemma {:induction false} NeverDroppedCountsAll(passes: seq<Pass>, start: int, width: nat)
    requires NeverDropped(passes, start, width)
    ensures LastDrop(passes, start, width) == 0
    decreases |passes|
  {
    hide Cut;
    if passes != [] {
      assert passes[|passes| - 1] in passes;
      NeverDroppedCountsAll(passes[..|passes| - 1], start, width);
    }
  }

  function HourOf(u: UserId, n: NodeId, day: int, h: nat): Bucket {
    Bucket(u, n, day + HOUR * h)
  }

  /** Sum of the first m hourly buckets of a day. */
  function HourSum(hourly: map<Bucket, Totals>, u: UserId, n: NodeId, day: int, m: nat): Totals {
    if m == 0 then ZERO else Plus(HourSum(hourly, u, n, day, m - 1), Lookup(hourly, HourOf(u, n, day, m - 1)))
  }

  function LedgerHours(ledger: seq<Accepted>, u: UserId, n: NodeId, day: int, m: nat): Totals {
    if m == 0 then ZERO else Plus(LedgerHours(ledger, u, n, day, m - 1), Sum(ledger, HourOf(u, n, day, m - 1), HOUR))
  }

  function HourContributions(a: Accepted, u: UserId, n: NodeId, day: int, m: nat): Totals {
    if m == 0 then ZERO else Plus(HourContributions(a, u, n, day, m - 1),
        Contribution(a, HourOf(u, n, day, m - 1), HOUR))
  }

  lemma PlusSwaps(a: Totals, b: Totals, c: Totals, d: Totals)
    ensures Plus(Plus(a, b), Plus(c, d)) == Plus(Plus(a, c), Plus(b, d))
  {
  }

  lemma {:induction false} LedgerHoursAppend(ledger: seq<Accepted>, a: Accepted, u: UserId, n: NodeId, day: int, m: nat)
    ensures LedgerHours(ledger + [a], u, n, day, m) == Plus(LedgerHours(ledger, u, n, day, m),
            HourContributions(a, u, n, day, m))
  {
    hide Sum, Contribution, Plus;
    if m > 0 {
      LedgerHoursAppend(ledger, a, u, n, day, m - 1);
      SumAppend(ledger, a, HourOf(u, n, day, m - 1), HOUR);
      PlusSwaps(LedgerHours(ledger, u, n, day, m - 1), HourContributions(a, u, n, day, m - 1),
                Sum(ledger, HourOf(u, n, day, m - 1), HOUR), Contribution(a, HourOf(u, n, day, m - 1), HOUR));
    } else {
      PlusZero(ZERO);
    }
  }

  predicate TrafficOf(a: Accepted, u: UserId, n: NodeId) {
    a.event.kind.TrafficDelta? && a.event.kind.user == u && a.node == n
  }

  /** An event counts in one hour of the first m, or in none. */
  lemma {:induction false} HourContributionsAre(a: Accepted, u: UserId, n: NodeId, day: int, m: nat)
    requires day % DAY == 0
    ensures HourContributions(a, u, n, day, m)
            == if TrafficOf(a, u, n) && day <= a.event.occurredAt < day + HOUR * m then a.event.kind.delta else ZERO
  {
    if m > 0 {
      HourContributionsAre(a, u, n, day, m - 1);
      HourHolds(day, m - 1, a.event.occurredAt);
      ContributionIs(a, HourOf(u, n, day, m - 1), HOUR);
      hide Contribution, Aligned;
    }
  }

  lemma ContributionIs(a: Accepted, b: Bucket, width: nat)
    requires width > 0
    ensures Contribution(a, b, width) == if TrafficOf(a, b.user, b.node)
            && Aligned(a.event.occurredAt, width) == b.start then a.event.kind.delta else ZERO
  {
  }

  lemma HourHolds(day: int, h: nat, at: int)
    requires day % DAY == 0
    ensures Aligned(at, HOUR) == day + HOUR * h <==> day + HOUR * h <= at < day + HOUR * h + HOUR
  {
  }

  lemma DayHolds(day: int, at: int)
    requires day % DAY == 0
    ensures Aligned(at, DAY) == day <==> day <= at < day + DAY
  {
  }

  lemma {:induction false} DaySplits(ledger: seq<Accepted>, u: UserId, n: NodeId, day: int)
    requires day % DAY == 0
    ensures Sum(ledger, Bucket(u, n, day), DAY) == LedgerHours(ledger, u, n, day, 24)
    decreases |ledger|
  {
    if ledger == [] {
      LedgerHoursEmpty(u, n, day, 24);
    } else {
      var last := |ledger| - 1;
      var a := ledger[last];
      assert ledger == ledger[..last] + [a];
      hide Sum, LedgerHours, HourContributions, Contribution, Aligned;
      DaySplits(ledger[..last], u, n, day);
      SumAppend(ledger[..last], a, Bucket(u, n, day), DAY);
      LedgerHoursAppend(ledger[..last], a, u, n, day, 24);
      HourContributionsAre(a, u, n, day, 24);
      ContributionIs(a, Bucket(u, n, day), DAY);
      DayHolds(day, a.event.occurredAt);
    }
  }

  lemma {:induction false} LedgerHoursEmpty(u: UserId, n: NodeId, day: int, m: nat)
    ensures LedgerHours([], u, n, day, m) == ZERO
  {
    if m > 0 {
      LedgerHoursEmpty(u, n, day, m - 1);
    }
  }

  /** A bucket that was never dropped holds all its deltas. */
  lemma WholeBucket(w: World, b: Bucket, width: nat)
    requires BucketWidth(width) && Rolled(w.tables, w.ledger, w.passes) && NeverDropped(w.passes, b.start, width)
    ensures Lookup(BucketsOf(w.tables, width), b) == Sum(w.ledger, b, width)
  {
    hide Sum, Lookup, LastDrop, WellPlaced, RawAgree, Cut;
    NeverDroppedCountsAll(w.passes, b.start, width);
    assert AgreeAt(BucketsOf(w.tables, width), w.ledger, w.passes, width, b);
    assert w.ledger[0..] == w.ledger;
  }

  lemma {:induction false} HoursAgree(w: World, u: UserId, n: NodeId, day: int, m: nat)
    requires Rolled(w.tables, w.ledger, w.passes) && NeverDropped(w.passes, day, HOUR)
    ensures HourSum(w.tables.hourly, u, n, day, m) == LedgerHours(w.ledger, u, n, day, m)
  {
    hide Sum, Lookup, Rolled, Cut;
    if m > 0 {
      HoursAgree(w, u, n, day, m - 1);
      WholeBucket(w, HourOf(u, n, day, m - 1), HOUR);
    }
  }

  /** A day none of whose buckets was ever dropped equals the sum of its 24 hours. */
  lemma DayIsSumOfHours(steps: seq<Step>, u: UserId, n: NodeId, day: int)
    requires var passes := Run(EmptyWorld, steps).passes;
             day % DAY == 0 && NeverDropped(passes, day, HOUR) && NeverDropped(passes, day, DAY)
    ensures var w := Run(EmptyWorld, steps);
            Lookup(w.tables.daily, Bucket(u, n, day)) == HourSum(w.tables.hourly, u, n, day, 24)
  {
    hide Run, Sum, LedgerHours, HourSum, Lookup, Rolled, NeverDropped;
    Reachable(steps);
    var w := Run(EmptyWorld, steps);
    HoursAgree(w, u, n, day, 24);
    DaySplits(w.ledger, u, n, day);
    WholeBucket(w, Bucket(u, n, day), DAY);
  }

  // ----- retention -----

  /** A retention pass deletes exactly the buckets that lie wholly before the retention window. */
  lemma RetentionIsAligned(steps: seq<Step>, now: Time, b: Bucket)
    ensures var t := Run(EmptyWorld, steps).tables;
            var q := Retain(t, now);
            && (b in t.hourly ==> (b !in q.hourly <==> b.start + HOUR <= now - HOURLY_RETENTION_DAYS * DAY))
            && (b in t.daily ==> (b !in q.daily <==> b.start + DAY <= now - DAILY_RETENTION_DAYS * DAY))
            && (b in q.hourly ==> b in t.hourly && q.hourly[b] == t.hourly[b])
            && (b in q.daily ==> b in t.daily && q.daily[b] == t.daily[b])
  {
    hide Run, Agree, RawAgree;
    Reachable(steps);
    var t := Run(EmptyWorld, steps).tables;
    if b in t.hourly {
      assert b.start % HOUR == 0;
      BeforeCutoff(b.start, now - HOURLY_RETENTION_DAYS * DAY);
    }
    if b in t.daily {
      assert b.start % DAY == 0;
      BeforeCutoffDay(b.start, now - DAILY_RETENTION_DAYS * DAY);
    }
  }

  lemma BeforeCutoff(start: int, cut: int)
    requires start % HOUR == 0
    ensures start < Aligned(cut, HOUR) <==> start + HOUR <= cut
  {
  }

  lemma BeforeCutoffDay(start: int, cut: int)
    requires start % DAY == 0
    ensures start < Aligned(cut, DAY) <==> start + DAY <= cut
  {
  }

  // ----- why the window matters -----

  /** Late telemetry recreates a dropped bucket with the late part only: after a pass that drops it and one
      more stored batch, a bucket is the sum of that batch's deltas. */
  lemma LateTelemetryRecreates(steps: seq<Step>, now: Time, n: NodeId, batch: Batch, later: Time, b: Bucket, width: nat)
    requires BucketWidth(width)
    requires var dropped := After(Run(EmptyWorld, steps), DoRetain(now));
             Stores(dropped.tables, n, batch, later) && b.start < Cut(Pass(0, now, 0), width)
    ensures var w := Run(EmptyWorld, steps);
            var z := After(After(w, DoRetain(now)), DoIngest(n, batch, later));
            && Lookup(BucketsOf(z.tables, width), b) == Sum(Entries(n, batch.events, later, w.tables.detailed), b,
               width)
            && (Lookup(BucketsOf(z.tables, width), b) == Sum(z.ledger, b, width) <==>
                NothingBefore(z.ledger, |w.ledger|, b, width))
  {
    hide Run, Ingest, Inv, Stores, Sum, Lookup, LastDrop, NothingBefore, Entries, Cut, Retain;
    Reachable(steps);
    var w := Run(EmptyWorld, steps);
    var dropped := After(w, DoRetain(now));
    var z := After(dropped, DoIngest(n, batch, later));
    StepKeeps(w, DoRetain(now));
    StepKeeps(dropped, DoIngest(n, batch, later));
    var p := Pass(|w.ledger|, now, w.tables.detailedDays);
    CutIgnoresHistory(p, Pass(0, now, 0), width);
    LastDropAppend(w.passes, p, b.start, width);
    AgreedAt(z, b, width);
    RetainKeepsPolicy(w.tables, now);
    assert z.ledger[|w.ledger|..] == Entries(n, batch.events, later, w.tables.detailed);
    SplitIsExact(z.ledger, |w.ledger|, b, width);
  }

  lemma CutIgnoresHistory(p: Pass, q: Pass, width: nat)
    requires p.now == q.now
    ensures Cut(p, width) == Cut(q, width)
  {
  }

  lemma RetainKeepsPolicy(t: TelemetryTables, now: Time)
    ensures Retain(t, now).detailed == t.detailed
  {
  }

  lemma AgreedAt(w: World, b: Bucket, width: nat)
    requires BucketWidth(width) && Inv(w)
    ensures LastDrop(w.passes, b.start, width) <= |w.ledger|
    ensures Lookup(BucketsOf(w.tables, width), b) == Sum(w.ledger[LastDrop(w.passes, b.start, width)..], b, width)
  {
    hide Sum, Lookup, LastDrop, WellPlaced, RawAgree;
    assert AgreeAt(BucketsOf(w.tables, width), w.ledger, w.passes, width, b);
  }

  // A family of runs in which a bucket ends below the sum of its deltas: one event, a pass that drops its
  // hour, and a second event of that hour.

  function Traffic(u: UserId, at: Time, delta: Totals, sequence: nat): Event {
    Event(sequence, at, TrafficDelta(u, delta))
  }

  function Single(e: Event): Batch {
    Batch(e.sequence, e.sequence, [e])
  }

  function LateRun(u: UserId, n: NodeId, at: Time, delta: Totals, now: Time): seq<Step> {
    [DoNode(n, NodeActive), DoAssign(u, n), DoIngest(n, Single(Traffic(u, at, delta, 1)), at), DoRetain(now),
     DoIngest(n, Single(Traffic(u, at, delta, 2)), now)]
  }

  /** Node n may send its next event, traffic of user u, into buckets that hold the delta or nothing. */
  ghost predicate Takes(t: TelemetryTables, u: UserId, n: NodeId, at: Time, delta: Totals, sequence: nat) {
    && n in t.nodes && t.nodes[n] == NodeActive && Pair(u, n) in t.assignments
    && sequence == Acknowledged(t, n) + 1 && (forall k :: k in t.events ==> k.sequence < sequence)
    && HoldsOrEmpty(t.hourly, Bucket(u, n, Aligned(at, HOUR)), delta)
    && HoldsOrEmpty(t.daily, Bucket(u, n, Aligned(at, DAY)), delta)
  }

  ghost predicate HoldsOrEmpty(buckets: map<Bucket, Totals>, b: Bucket, delta: Totals) {
    Lookup(buckets, b) == ZERO || Lookup(buckets, b) == delta
  }

  predicate Doubles(delta: Totals) {
    Representable(delta) && Representable(Plus(delta, delta))
  }

  lemma HasRoom(buckets: map<Bucket, Totals>, b: Bucket, delta: Totals)
    requires HoldsOrEmpty(buckets, b, delta) && Doubles(delta) && b.start >= 0
    ensures Upsert(buckets, b, delta).Ok?
    ensures Lookup(Upsert(buckets, b, delta).value, b) == Plus(Lookup(buckets, b), delta)
  {
  }

  lemma TakenEvent(t: TelemetryTables, u: UserId, n: NodeId, at: Time, delta: Totals, sequence: nat, now: Time)
    returns (q: TelemetryTables)
    requires Takes(t, u, n, at, delta, sequence) && Doubles(delta) && 0 <= at <= now + DAY
    ensures Persist(t, n, Traffic(u, at, delta, sequence), now) == Ok(q)
    ensures q.hourly == Upsert(t.hourly, Bucket(u, n, Aligned(at, HOUR)), delta).value
    ensures q.daily == Upsert(t.daily, Bucket(u, n, Aligned(at, DAY)), delta).value
  {
    AlignedIsNatural(at);
    hide Aligned, Doubles, HoldsOrEmpty, Upsert;
    HasRoom(t.hourly, Bucket(u, n, Aligned(at, HOUR)), delta);
    HasRoom(t.daily, Bucket(u, n, Aligned(at, DAY)), delta);
    assert EventKey(n, sequence) !in t.events;
    q := Persist(t, n, Traffic(u, at, delta, sequence), now).value;
  }

  lemma AlignedIsNatural(at: Time)
    requires at >= 0
    ensures Aligned(at, HOUR) >= 0 && Aligned(at, DAY) >= 0
  {
  }

  lemma TakenBatch(t: TelemetryTables, u: UserId, n: NodeId, at: Time, delta: Totals, sequence: nat, now: Time)
    returns (q: TelemetryTables)
    requires Takes(t, u, n, at, delta, sequence) && Doubles(delta) && 0 <= at <= now + DAY && sequence < MAX_I64
    ensures Stores(t, n, Single(Traffic(u, at, delta, sequence)), now)
    ensures Ingest(t, n, Single(Traffic(u, at, delta, sequence)), now).tables == q
    ensures q.nodes == t.nodes && q.assignments == t.assignments && Acknowledged(q, n) == sequence
    ensures forall k :: k in q.events ==> k.sequence <= sequence
    ensures q.hourly == Upsert(t.hourly, Bucket(u, n, Aligned(at, HOUR)), delta).value
    ensures q.daily == Upsert(t.daily, Bucket(u, n, Aligned(at, DAY)), delta).value
  {
    hide Aligned, Upsert, Persist, HoldsOrEmpty;
    var e := Traffic(u, at, delta, sequence);
    var known := t.(cursors := t.cursors[n := Acknowledged(t, n)]);
    assert Takes(known, u, n, at, delta, sequence);
    var m := TakenEvent(known, u, n, at, delta, sequence, now);
    PersistFrame(known, n, e, now, m);
    hide Takes;
    assert ValidBatch(Single(e));
    assert Single(e).events[1..] == [];
    assert PersistAll(m, n, [], now) == Ok(m);
    assert PersistAll(known, n, Single(e).events, now) == Ok(m);
    q := Ingest(t, n, Single(e), now).tables;
  }

  lemma RetainedTakes(t: TelemetryTables, u: UserId, n: NodeId, at: Time, delta: Totals, sequence: nat, now: Time)
    requires Takes(t, u, n, at, delta, sequence)
    ensures Takes(Retain(t, now), u, n, at, delta, sequence)
  {
    hide Aligned, Cutoff, Retained;
  }

  function Prepared(u: UserId, n: NodeId): World {
    EmptyWorld.(tables := EmptyTelemetry.(nodes := map[n := NodeActive], assignments := {Pair(u, n)}))
  }

  lemma EmptyTakes(u: UserId, n: NodeId, at: Time, delta: Totals)
    ensures Takes(Prepared(u, n).tables, u, n, at, delta, 1)
  {
    hide Aligned;
  }

  lemma FirstTaken(u: UserId, n: NodeId, at: Time, delta: Totals, q: TelemetryTables)
    requires Doubles(delta) && at >= 0
    requires q.nodes == map[n := NodeActive] && q.assignments == {Pair(u, n)} && Acknowledged(q, n) == 1
    requires forall k :: k in q.events ==> k.sequence <= 1
    requires q.hourly == Upsert(map[], Bucket(u, n, Aligned(at, HOUR)), delta).value
    requires q.daily == Upsert(map[], Bucket(u, n, Aligned(at, DAY)), delta).value
    requires Upsert(map[], Bucket(u, n, Aligned(at, HOUR)), delta).Ok?
             && Upsert(map[], Bucket(u, n, Aligned(at, DAY)), delta).Ok?
    ensures Takes(q, u, n, at, delta, 2)
  {
    hide Aligned;
  }

  lemma RunThree(w: World, a: Step, b: Step, c: Step)
    ensures Run(w, [a, b, c]) == After(After(After(w, a), b), c)
  {
    hide After;
    assert [a, b, c][1..] == [b, c] && [b, c][1..] == [c] && [c][1..] == [];
    assert Run(After(w, a), [b, c]) == Run(After(After(w, a), b), [c]);
    assert Run(After(After(w, a), b), [c]) == Run(After(After(After(w, a), b), c), []);
  }

  lemma {:induction false} RunConcat(w: World, x: seq<Step>, y: seq<Step>)
    ensures Run(w, x + y) == Run(Run(w, x), y)
    decreases |x|
  {
    hide After;
    if x == [] {
      assert x + y == y;
    } else {
      assert (x + y)[0] == x[0] && (x + y)[1..] == x[1..] + y;
      RunConcat(After(w, x[0]), x[1..], y);
    }
  }

  lemma RunTwo(w: World, a: Step, b: Step)
    ensures Run(w, [a, b]) == After(After(w, a), b)
  {
    hide After;
    assert [a, b][1..] == [b] && [b][1..] == [];
    assert Run(After(w, a), [b]) == Run(After(After(w, a), b), []);
  }

  /** Every such run is possible, and ends with the delta where the accepted events add up to twice that. */
  lemma LateRunLoses(u: UserId, n: NodeId, at: Time, delta: Totals, now: Time)
    requires 0 <= at <= now && Doubles(delta) && Aligned(at, HOUR) < Cut(Pass(0, now, 0), HOUR)
    ensures var w := Run(EmptyWorld, LateRun(u, n, at, delta, now));
            var b := Bucket(u, n, Aligned(at, HOUR));
            Lookup(w.tables.hourly, b) == delta && Sum(w.ledger, b, HOUR) == Plus(delta, delta)
  {
    hide Aligned, Upsert, Takes, Stores, Ingest, Retain, Sum, Cut, Doubles, Run, Lookup, Plus;
    var e, f := Traffic(u, at, delta, 1), Traffic(u, at, delta, 2);
    var start := [DoNode(n, NodeActive), DoAssign(u, n), DoIngest(n, Single(e), at)];
    var end := [DoRetain(now), DoIngest(n, Single(f), now)];
    var x := LateStart(u, n, at, delta);
    RetainedTakes(x.tables, u, n, at, delta, 2, now);
    var dropped := After(x, DoRetain(now));
    var _ := TakenBatch(dropped.tables, u, n, at, delta, 2, now);
    LateTelemetryRecreates(start, now, n, Single(f), now, Bucket(u, n, Aligned(at, HOUR)), HOUR);
    RunConcat(EmptyWorld, start, end);
    RunTwo(x, DoRetain(now), DoIngest(n, Single(f), now));
    assert start + end == LateRun(u, n, at, delta, now);
    RetainKeepsPolicy(x.tables, now);
    var z := After(dropped, DoIngest(n, Single(f), now));
    var a, c := Accepted(n, e, at, false), Accepted(n, f, now, x.tables.detailed);
    assert Entries(n, Single(f).events, now, x.tables.detailed) == [c];
    assert z.ledger == [a] + [c];
    TwoSum(a, c, Bucket(u, n, Aligned(at, HOUR)), delta);
  }

  lemma LateStart(u: UserId, n: NodeId, at: Time, delta: Totals) returns (x: World)
    requires at >= 0 && Doubles(delta)
    ensures Run(EmptyWorld, [DoNode(n, NodeActive), DoAssign(u, n), DoIngest(n, Single(Traffic(u, at, delta, 1)), at)])
            == x
    ensures x.ledger == [Accepted(n, Traffic(u, at, delta, 1), at, false)] && Takes(x.tables, u, n, at, delta, 2)
  {
    hide Aligned, Upsert, Takes, Stores, Ingest, Doubles, Run;
    var e := Traffic(u, at, delta, 1);
    var w := Prepared(u, n);
    assert After(After(EmptyWorld, DoNode(n, NodeActive)), DoAssign(u, n)) == w;
    EmptyTakes(u, n, at, delta);
    var q := TakenBatch(w.tables, u, n, at, delta, 1, at);
    x := After(w, DoIngest(n, Single(e), at));
    RunThree(EmptyWorld, DoNode(n, NodeActive), DoAssign(u, n), DoIngest(n, Single(e), at));
    assert Entries(n, Single(e).events, at, false) == [Accepted(n, e, at, false)];
    EmptyHasRoom(u, n, at, delta);
    FirstTaken(u, n, at, delta, q);
  }

  lemma EmptyHasRoom(u: UserId, n: NodeId, at: Time, delta: Totals)
    requires at >= 0 && Doubles(delta)
    ensures Upsert(map[], Bucket(u, n, Aligned(at, HOUR)), delta).Ok? && Upsert(map[], Bucket(u, n, Aligned(at, DAY)),
            delta).Ok?
  {
    AlignedIsNatural(at);
    hide Aligned, Upsert;
    HasRoom(map[], Bucket(u, n, Aligned(at, HOUR)), delta);
    HasRoom(map[], Bucket(u, n, Aligned(at, DAY)), delta);
  }

  lemma TwoSum(a: Accepted, c: Accepted, b: Bucket, delta: Totals)
    requires Contribution(a, b, HOUR) == delta && Contribution(c, b, HOUR) == delta
    ensures Sum([c], b, HOUR) == delta && Sum([a] + [c], b, HOUR) == Plus(delta, delta)
  {
    hide Contribution, Sum;
    SumOfNothing(b, HOUR);
    SumAppend([], a, b, HOUR);
    SumAppend([], c, b, HOUR);
    assert [] + [a] == [a] && [] + [c] == [c];
    SumAppend([a], c, b, HOUR);
  }

  // ----- what is accepted -----

  /** Accepted events are at most a day ahead of the controller's clock and name only users assigned to the node. */
  ghost predicate Sound(t: TelemetryTables, a: Accepted) {
    && a.event.occurredAt <= a.receivedAt + DAY
    && (NamesUser(a.event.kind) ==> Pair(UserOf(a.event.kind), a.node) in t.assignments)
  }

  ghost predicate LedgerSound(w: World) {
    forall a :: a in w.ledger ==> Sound(w.tables, a)
  }

  lemma {:induction false} PersistAllSound(t: TelemetryTables, n: NodeId, events: seq<Event>, now: Time,
                                           q: TelemetryTables)
    requires PersistAll(t, n, events, now) == Ok(q)
    ensures q.assignments == t.assignments && forall i :: 0 <= i < |events| ==>
              Sound(t, Accepted(n, events[i], now, t.detailed))
    decreases |events|
  {
    if events != [] {
      assert Sound(t, Accepted(n, events[0], now, t.detailed));
      var m := Persist(t, n, events[0], now).value;
      PersistFrame(t, n, events[0], now, m);
      hide Persist;
      PersistAllSound(m, n, events[1..], now, q);
      forall i | 0 <= i < |events| ensures Sound(t, Accepted(n, events[i], now, t.detailed)) {
        if i > 0 {
          assert Sound(m, Accepted(n, events[1..][i - 1], now, m.detailed));
        }
      }
    }
  }

  lemma StepKeepsSound(w: World, step: Step)
    requires LedgerSound(w)
    ensures LedgerSound(After(w, step))
  {
    if step.DoIngest? {
      IngestCases(w, step.node, step.batch, step.now);
      if Stores(w.tables, step.node, step.batch, step.now) {
        var known := w.tables.(cursors := w.tables.cursors[step.node := Acknowledged(w.tables, step.node)]);
        var s := PersistAll(known, step.node, step.batch.events, step.now).value;
        PersistAllSound(known, step.node, step.batch.events, step.now, s);
        hide Ingest, PersistAll;
        forall a | a in After(w, step).ledger ensures Sound(After(w, step).tables, a) {
          if a !in w.ledger {
            assert a in Entries(step.node, step.batch.events, step.now, w.tables.detailed);
            var i :| 0 <= i < |step.batch.events| && a == Accepted(step.node, step.batch.events[i], step.now,
                w.tables.detailed);
            assert Sound(known, a);
          }
        }
      }
    }
  }

  lemma {:induction false} AcceptedIsSound(w: World, steps: seq<Step>)
    requires LedgerSound(w)
    ensures LedgerSound(Run(w, steps))
    decreases |steps|
  {
    hide LedgerSound, After;
    if steps != [] {
      StepKeepsSound(w, steps[0]);
      AcceptedIsSound(After(w, steps[0]), steps[1..]);
    }
  }

  /** In every reachable state the stored raw events are exactly the accepted ones that every later pass
      retained, with their time of receipt; connection details are kept exactly for those accepted while
      detailed collection was on. */
  lemma RawEventsAreExact(steps: seq<Step>, k: EventKey)
    ensures var w := Run(EmptyWorld, steps);
            && (k in w.tables.events <==> exists i :: Backs(w.ledger, w.passes, i, k))
            && (forall i :: Backs(w.ledger, w.passes, i, k) ==>
                  && w.tables.events[k].event == w.ledger[i].event && w.tables.events[k].receivedAt
                     == w.ledger[i].receivedAt
                  && (w.tables.events[k].details <==> w.ledger[i].detailed || !w.ledger[i].event.kind.Connection?))
  {
    hide Run, Agree, WellPlaced, Backs;
    Reachable(steps);
    assert RawAgree(Run(EmptyWorld, steps).tables.events, Run(EmptyWorld, steps).ledger, Run(EmptyWorld, steps).passes);
  }
}
