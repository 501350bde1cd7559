/** High-water marks of a controller database and the order restore compares them by. */
module HighWater {
  import opened Domain

  type Marks = map<nat, nat>

  datatype HighWaterMarks = HighWaterMarks(
    networkRevision: nat,
    auditEvent: nat,
    sequences: Marks,
    telemetry: Marks,
    sessions: Marks,
    bundles: Marks,
    canaries: Marks)

  /** A missing key counts as zero. */
  function Mark(m: Marks, k: nat): nat {
    if k in m then m[k] else 0
  }

  predicate Covers(candidate: Marks, baseline: Marks) {
    forall k :: k in baseline ==> baseline[k] <= Mark(candidate, k)
  }

  /** The candidate is at least as far as the baseline in every mark. */
  predicate NotBehind(candidate: HighWaterMarks, baseline: HighWaterMarks) {
    && baseline.networkRevision <= candidate.networkRevision && baseline.auditEvent <= candidate.auditEvent
    && Covers(candidate.sequences, baseline.sequences) && Covers(candidate.telemetry, baseline.telemetry)
    && Covers(candidate.sessions, baseline.sessions) && Covers(candidate.bundles, baseline.bundles)
    && Covers(candidate.canaries, baseline.canaries)
  }

  ghost predicate SameMarks(a: Marks, b: Marks) {
    forall k :: Mark(a, k) == Mark(b, k)
  }

  /** Equal marks, up to absent keys with value zero. */
  ghost predicate Equivalent(a: HighWaterMarks, b: HighWaterMarks) {
    && a.networkRevision == b.networkRevision && a.auditEvent == b.auditEvent
    && SameMarks(a.sequences, b.sequences) && SameMarks(a.telemetry, b.telemetry) && SameMarks(a.sessions, b.sessions)
    && SameMarks(a.bundles, b.bundles) && SameMarks(a.canaries, b.canaries)
  }

  // ----- the order -----

  lemma CoversTransitive(a: Marks, b: Marks, c: Marks)
    requires Covers(a, b) && Covers(b, c)
    ensures Covers(a, c)
  {
  }

  lemma CoversBothWays(a: Marks, b: Marks)
    ensures Covers(a, b) && Covers(b, a) <==> SameMarks(a, b)
  {
  }

  /** The comparison is a preorder whose equivalence is equality up to absent zeros. */
  lemma NotBehindIsAPreorder(a: HighWaterMarks, b: HighWaterMarks, c: HighWaterMarks)
    ensures NotBehind(a, a)
    ensures NotBehind(a, b) && NotBehind(b, c) ==> NotBehind(a, c)
    ensures NotBehind(a, b) && NotBehind(b, a) <==> Equivalent(a, b)
  {
    if NotBehind(a, b) && NotBehind(b, c) {
      CoversTransitive(a.sequences, b.sequences, c.sequences);
      CoversTransitive(a.telemetry, b.telemetry, c.telemetry);
      CoversTransitive(a.sessions, b.sessions, c.sessions);
      CoversTransitive(a.bundles, b.bundles, c.bundles);
      CoversTransitive(a.canaries, b.canaries, c.canaries);
    }
    CoversBothWays(a.sequences, b.sequences);
    CoversBothWays(a.telemetry, b.telemetry);
    CoversBothWays(a.sessions, b.sessions);
    CoversBothWays(a.bundles, b.bundles);
    CoversBothWays(a.canaries, b.canaries);
    hide Covers, SameMarks;
    assert NotBehind(a, a) by { CoversItself(a); }
  }

  lemma CoversItself(a: HighWaterMarks)
    ensures NotBehind(a, a)
  {
  }

  // ----- the loops -----

  datatype Row = Row(key: nat, value: nat)

  /** Fill a map from the rows of a query, one row at a time; a later row of the same key wins. */
  method LoadKeyedMarks(rows: seq<Row>) returns (marks: Marks)
    ensures forall k :: k in marks <==> exists i :: 0 <= i < |rows| && rows[i].key == k
    ensures forall i :: 0 <= i < |rows| && NewestOfKey(rows, |rows|, i) ==> marks[rows[i].key] == rows[i].value
  {
    marks := map[];
    for i := 0 to |rows|
      invariant forall k :: k in marks <==> exists j :: 0 <= j < i && rows[j].key == k
      invariant forall j :: 0 <= j < i && NewestOfKey(rows, i, j) ==> marks[rows[j].key] == rows[j].value
    {
      assert forall j :: 0 <= j < i && NewestOfKey(rows, i + 1, j) ==>
            NewestOfKey(rows, i, j) && rows[j].key != rows[i].key;
      marks := marks[rows[i].key := rows[i].value];
    }
  }

  /** No row between `i` and `upto` has the same key. */
  ghost predicate NewestOfKey(rows: seq<Row>, upto: nat, i: nat)
    requires i < upto <= |rows|
  {
    forall j :: i < j < upto ==> rows[j].key != rows[i].key
  }

  /** Whether some baseline mark exceeds the candidate's. */
  method AnyBehind(candidate: Marks, baseline: Marks) returns (behind: bool)
    ensures behind <==> !Covers(candidate, baseline)
  {
    var todo := baseline.Keys;
    while todo != {}
      invariant todo <= baseline.Keys
      invariant forall k :: k in baseline && k !in todo ==> baseline[k] <= Mark(candidate, k)
      decreases |todo|
    {
      var k :| k in todo;
      if Mark(candidate, k) < baseline[k] {
        return true;
      }
      todo := todo - {k};
    }
    return false;
  }

  /** Compare the two counters, then the five keyed families in turn. */
  method EnsureNotRollback(candidate: HighWaterMarks, baseline: HighWaterMarks) returns (ok: bool)
    ensures ok <==> NotBehind(candidate, baseline)
  {
    if candidate.networkRevision < baseline.networkRevision || candidate.auditEvent < baseline.auditEvent {
      return false;
    }
    var pairs := [(candidate.sequences, baseline.sequences), (candidate.telemetry, baseline.telemetry),
                  (candidate.sessions, baseline.sessions), (candidate.bundles, baseline.bundles),
                  (candidate.canaries, baseline.canaries)];
    for i := 0 to |pairs|
      invariant forall j :: 0 <= j < i ==> Covers(pairs[j].0, pairs[j].1)
    {
      var behind := AnyBehind(pairs[i].0, pairs[i].1);
      if behind {
        assert pairs[i] == pairs[0] || pairs[i] == pairs[1] || pairs[i] == pairs[2] || pairs[i] == pairs[3]
            || pairs[i] == pairs[4];
        return false;
      }
    }
    assert Covers(pairs[0].0, pairs[0].1) && Covers(pairs[1].0, pairs[1].1) && Covers(pairs[2].0, pairs[2].1);
    assert Covers(pairs[3].0, pairs[3].1) && Covers(pairs[4].0, pairs[4].1);
    return true;
  }
}
