/** What one accepted heartbeat does to the registry, row by row, and when it is accepted. */
module Heartbeats {
  import opened Domain
  import opened Plane
  import opened Endpoints

  ghost predicate Mentions(es: seq<Reported>, e: EndpointId) {
    exists i :: 0 <= i < |es| && es[i].endpoint == e
  }

  ghost predicate DistinctIds(es: seq<Reported>) {
    forall i, j :: 0 <= i < j < |es| ==> es[i].endpoint != es[j].endpoint
  }

  ghost predicate DistinctAddresses(es: seq<Reported>) {
    forall i, j :: 0 <= i < j < |es| ==> !SameAddress(es[i].report, es[j].report)
  }

  /** A candidate is withdrawn exactly when its verification is, and both tables have the same keys. */
  ghost predicate InStep(t: Registry) {
    && t.verifications.Keys == t.candidates.Keys
    && forall k :: k in t.candidates ==> (t.candidates[k].withdrawn <==> t.verifications[k].status == Withdrawn)
  }

  // ----- attempts -----

  /** Tickets are fixed, terminal attempts never change, and no attempt is lost. */
  ghost predicate AttemptsGrow(a: seq<Attempt>, b: seq<Attempt>) {
    && |a| <= |b|
    && forall i :: 0 <= i < |a| ==>
         b[i].ticket == a[i].ticket && b[i].startedAt == a[i].startedAt && (a[i].status != Claimed ==> b[i] == a[i])
  }

  lemma AttemptsGrowTransitive(a: seq<Attempt>, b: seq<Attempt>, c: seq<Attempt>)
    requires AttemptsGrow(a, b) && AttemptsGrow(b, c)
    ensures AttemptsGrow(a, c)
  {
  }

  /** Attempts stay as they are, except that claims may be closed without a result. */
  ghost predicate OnlyCloses(a: seq<Attempt>, b: seq<Attempt>) {
    && |a| == |b|
    && forall i :: 0 <= i < |a| ==> b[i] == a[i] || (a[i].status == Claimed && ClosedFrom(a[i], b[i]))
  }

  ghost predicate ClosedFrom(a: Attempt, b: Attempt) {
    b.ticket == a.ticket && b.startedAt == a.startedAt && (b.status == Cancelled || b.status == Expired)
  }

  lemma OnlyClosesTransitive(a: seq<Attempt>, b: seq<Attempt>, c: seq<Attempt>)
    requires OnlyCloses(a, b) && OnlyCloses(b, c)
    ensures OnlyCloses(a, c)
  {
  }

  // ----- the refresh loop -----

  function RefreshedCandidate(c: Candidate, generation: nat): Candidate {
    if c.withdrawn then Candidate(c.report, generation, generation, false) else c.(lastGeneration := generation)
  }

  function RefreshedVerification(v: Verification): Verification {
    if v.status == Withdrawn then Verification(Unverified, None, None) else v
  }

  ghost predicate Touched(n: NodeId, es: seq<Reported>, k: EndpointKey) {
    k.node == n && Mentions(es, k.endpoint)
  }

  ghost predicate RefreshEffect(t: Registry, q: Registry, n: NodeId, es: seq<Reported>, generation: nat) {
    && q == t.(candidates := q.candidates, verifications := q.verifications, attempts := q.attempts)
    && q.candidates.Keys == t.candidates.Keys && q.verifications.Keys == t.verifications.Keys
    && (forall k :: k in t.candidates ==>
          q.candidates[k] == if Touched(n, es, k) then RefreshedCandidate(t.candidates[k], generation)
              else t.candidates[k])
    && (forall k :: k in t.verifications ==>
          q.verifications[k] == if Touched(n, es, k) then RefreshedVerification(t.verifications[k])
              else t.verifications[k])
    && OnlyCloses(t.attempts, q.attempts)
    && (forall i :: 0 <= i < |es| ==> ReportKept(t, n, es[i]))
  }

  /** A known endpoint is reported with the fields it was stored with. */
  ghost predicate ReportKept(t: Registry, n: NodeId, e: Reported) {
    EndpointKey(n, e.endpoint) in t.candidates ==> t.candidates[EndpointKey(n, e.endpoint)].report == e.report
  }

  lemma RefreshOneCases(t: Registry, q: Registry, n: NodeId, e: Reported, generation: nat, now: Time)
    requires InStep(t) && RefreshCandidate(t, n, e, generation, now) == Ok(q)
    ensures var k := EndpointKey(n, e.endpoint);
            q == if k !in t.candidates then t
                 else t.(candidates := t.candidates[k := RefreshedCandidate(t.candidates[k], generation)],
                         verifications := t.verifications[k := RefreshedVerification(t.verifications[k])],
                         attempts := q.attempts)
    ensures OnlyCloses(t.attempts, q.attempts) && ReportKept(t, n, e)
  {
    var k := EndpointKey(n, e.endpoint);
    CancelCloses(t.attempts, k, now);
    ClosesNothing(t.attempts);
    hide CancelClaims, OnlyCloses, AddressHeld, CanCancel, PortMatches;
    if k in t.candidates {
      assert t.candidates[k].withdrawn <==> t.verifications[k].status == Withdrawn;
    }
  }

  lemma RefreshOneEffect(t: Registry, q: Registry, n: NodeId, e: Reported, generation: nat, now: Time)
    requires InStep(t) && RefreshCandidate(t, n, e, generation, now) == Ok(q)
    ensures RefreshEffect(t, q, n, [e], generation) && InStep(q)
  {
    RefreshOneCases(t, q, n, e, generation, now);
    forall k ensures Touched(n, [e], k) <==> k == EndpointKey(n, e.endpoint) {
      assert [e][0].endpoint == e.endpoint;
    }
    hide RefreshCandidate, OnlyCloses, Touched, ReportKept;
    assert ReportKept(t, n, [e][0]);
  }

  lemma ClosesNothing(a: seq<Attempt>)
    ensures OnlyCloses(a, a)
  {
  }

  lemma CancelCloses(a: seq<Attempt>, k: EndpointKey, now: Time)
    ensures OnlyCloses(a, CancelClaims(a, k, now))
  {
  }

  lemma MentionsSplit(es: seq<Reported>, e: EndpointId)
    requires es != []
    ensures Mentions(es, e) <==> es[0].endpoint == e || Mentions(es[1..], e)
  {
  }

  lemma RefreshCompose(t: Registry, m: Registry, q: Registry, n: NodeId, es: seq<Reported>, generation: nat)
    requires es != [] && DistinctIds(es)
    requires RefreshEffect(t, m, n, [es[0]], generation) && RefreshEffect(m, q, n, es[1..], generation)
    ensures RefreshEffect(t, q, n, es, generation)
  {
    OnlyClosesTransitive(t.attempts, m.attempts, q.attempts);
    forall k ensures Touched(n, es, k) <==> Touched(n, [es[0]], k) || Touched(n, es[1..], k)
             ensures !(Touched(n, [es[0]], k) && Touched(n, es[1..], k))
    {
      MentionsSplit(es, k.endpoint);
      MentionsSplit([es[0]], k.endpoint);
      assert [es[0]][1..] == [];
    }
    forall i | 0 <= i < |es| ensures ReportKept(t, n, es[i]) {
      if i == 0 {
        assert ReportKept(t, n, [es[0]][0]);
      } else {
        assert ReportKept(m, n, es[1..][i - 1]);
        assert t.candidates.Keys == m.candidates.Keys;
      }
    }
    hide OnlyCloses, Touched;
  }

  lemma {:induction false} RefreshAllEffect(t: Registry, q: Registry, n: NodeId, es: seq<Reported>, generation: nat,
                                            now: Time)
    requires InStep(t) && DistinctIds(es) && RefreshAll(t, n, es, generation, now) == Ok(q)
    ensures RefreshEffect(t, q, n, es, generation) && InStep(q)
    decreases |es|
  {
    hide RefreshCandidate, RefreshEffect, InStep;
    if es == [] {
      assert RefreshEffect(t, q, n, es, generation) by { RefreshNothing(t, n, generation); }
    } else {
      var m := RefreshCandidate(t, n, es[0], generation, now).value;
      RefreshOneEffect(t, m, n, es[0], generation, now);
      RefreshAllEffect(m, q, n, es[1..], generation, now);
      RefreshCompose(t, m, q, n, es, generation);
    }
  }

  lemma RefreshNothing(t: Registry, n: NodeId, generation: nat)
    ensures RefreshEffect(t, t, n, [], generation)
  {
  }

  // ----- the insert loop -----

  lemma {:induction false} UnknownElements(t: Registry, n: NodeId, es: seq<Reported>)
    ensures forall e :: e in Unknown(t, n, es) <==> e in es && EndpointKey(n, e.endpoint) !in t.candidates
    ensures DistinctIds(es) ==> DistinctIds(Unknown(t, n, es))
  {
    if es != [] {
      UnknownElements(t, n, es[1..]);
      var rest := Unknown(t, n, es[1..]);
      forall e ensures e in Unknown(t, n, es) <==> e in es && EndpointKey(n, e.endpoint) !in t.candidates {
        assert e in es <==> e == es[0] || e in es[1..];
      }
      if DistinctIds(es) {
        assert DistinctIds(es[1..]);
        forall j | 0 <= j < |rest| ensures rest[j].endpoint != es[0].endpoint {
          assert rest[j] in es[1..];
        }
      }
    }
  }

  ghost predicate InsertEffect(t: Registry, q: Registry, n: NodeId, es: seq<Reported>, generation: nat) {
    && q == t.(candidates := q.candidates, verifications := q.verifications)
    && (forall k :: k in t.candidates ==> k in q.candidates && q.candidates[k] == t.candidates[k])
    && (forall k :: k in t.verifications ==> k in q.verifications && q.verifications[k] == t.verifications[k])
    && (forall i :: 0 <= i < |es| ==> Inserted(t, q, n, es[i], generation))
    && (forall k :: k in q.candidates && k !in t.candidates ==> Touched(n, es, k))
    && (forall k :: k in q.verifications && k !in t.verifications ==> Touched(n, es, k))
  }

  ghost predicate Inserted(t: Registry, q: Registry, n: NodeId, e: Reported, generation: nat) {
    var k := EndpointKey(n, e.endpoint);
    && k !in t.candidates && k !in t.verifications
    && k in q.candidates && q.candidates[k] == Candidate(e.report, generation, generation, false)
    && k in q.verifications && q.verifications[k] == Verification(Unverified, None, None)
    && RevisionKey(n, e.report.revision) in q.snapshots
  }

  lemma InsertOneEffect(t: Registry, q: Registry, n: NodeId, e: Reported, generation: nat)
    requires InsertCandidate(t, n, e, generation) == Ok(q)
    ensures InsertEffect(t, q, n, [e], generation)
  {
    assert [e][0].endpoint == e.endpoint;
  }

  lemma InsertComposeNew(t: Registry, m: Registry, q: Registry, n: NodeId, es: seq<Reported>, generation: nat, i: nat)
    requires i < |es| && InsertEffect(t, m, n, [es[0]], generation) && InsertEffect(m, q, n, es[1..], generation)
    ensures Inserted(t, q, n, es[i], generation)
  {
    if i == 0 {
      assert Inserted(t, m, n, [es[0]][0], generation);
    } else {
      assert Inserted(m, q, n, es[1..][i - 1], generation);
    }
    hide Touched;
  }

  lemma InsertCompose(t: Registry, m: Registry, q: Registry, n: NodeId, es: seq<Reported>, generation: nat)
    requires es != [] && InsertEffect(t, m, n, [es[0]], generation) && InsertEffect(m, q, n, es[1..], generation)
    ensures InsertEffect(t, q, n, es, generation)
  {
    forall k ensures Touched(n, es, k) <==> Touched(n, [es[0]], k) || Touched(n, es[1..], k) {
      MentionsSplit(es, k.endpoint);
      MentionsSplit([es[0]], k.endpoint);
      assert [es[0]][1..] == [];
    }
    forall i | 0 <= i < |es| ensures Inserted(t, q, n, es[i], generation) {
      InsertComposeNew(t, m, q, n, es, generation, i);
    }
    hide Touched, Inserted;
  }

  lemma {:induction false} InsertAllEffect(t: Registry, q: Registry, n: NodeId, es: seq<Reported>, generation: nat)
    requires InsertAll(t, n, es, generation) == Ok(q)
    ensures InsertEffect(t, q, n, es, generation)
    decreases |es|
  {
    hide InsertCandidate, InsertEffect;
    if es == [] {
      assert InsertEffect(t, q, n, es, generation) by { InsertNothing(t, n, generation); }
    } else {
      var m := InsertCandidate(t, n, es[0], generation).value;
      InsertOneEffect(t, m, n, es[0], generation);
      InsertAllEffect(m, q, n, es[1..], generation);
      InsertCompose(t, m, q, n, es, generation);
    }
  }

  lemma InsertNothing(t: Registry, n: NodeId, generation: nat)
    ensures InsertEffect(t, t, n, [], generation)
  {
  }

  // ----- a whole heartbeat -----

  function BeatCandidate(c: Candidate, ours: bool, mentioned: bool, generation: nat): Candidate {
    if !ours then c else if mentioned then RefreshedCandidate(c, generation) else c.(withdrawn := true)
  }

  function BeatVerification(v: Verification, ours: bool, mentioned: bool): Verification {
    if !ours then v else if mentioned then RefreshedVerification(v) else v.(status := Withdrawn)
  }

  /** The candidates and verifications after the node reported `es`. */
  ghost predicate ReportEffect(t: Registry, q: Registry, n: NodeId, es: seq<Reported>, generation: nat) {
    && q == t.(candidates := q.candidates, verifications := q.verifications, attempts := q.attempts)
    && OnlyCloses(t.attempts, q.attempts)
    && t.verifications.Keys == t.candidates.Keys && q.verifications.Keys == q.candidates.Keys
    && (forall k :: k in t.candidates ==>
          k in q.candidates && q.candidates[k] == BeatCandidate(t.candidates[k], k.node == n, Mentions(es, k.endpoint),
              generation)
          && q.verifications[k] == BeatVerification(t.verifications[k], k.node == n, Mentions(es, k.endpoint)))
    && (forall k :: k in q.candidates && k !in t.candidates ==> Touched(n, es, k))
    && (forall i :: 0 <= i < |es| ==> ReportKept(t, n, es[i]))
    && (forall i :: 0 <= i < |es| && EndpointKey(n, es[i].endpoint) !in t.candidates ==>
           NewRow(q, n, es[i], generation))
  }

  ghost predicate NewRow(q: Registry, n: NodeId, e: Reported, generation: nat) {
    var k := EndpointKey(n, e.endpoint);
    && k in q.candidates && q.candidates[k] == Candidate(e.report, generation, generation, false)
    && k in q.verifications && q.verifications[k] == Verification(Unverified, None, None)
    && RevisionKey(n, e.report.revision) in q.snapshots
  }

  ghost predicate BehindOf(t: Registry, n: NodeId, generation: nat) {
    forall k :: k in t.candidates && k.node == n ==> t.candidates[k].lastGeneration < generation
  }

  /** After the refresh loop, withdrawing leaves exactly the mentioned candidates of the node current. */
  lemma WithdrawEffect(t: Registry, m: Registry, n: NodeId, es: seq<Reported>, generation: nat)
    requires InStep(t) && InStep(m) && BehindOf(t, n, generation) && RefreshEffect(t, m, n, es, generation)
    ensures var w := WithdrawMissing(m, n, generation);
            && w == m.(candidates := w.candidates, verifications := w.verifications)
            && w.candidates.Keys == t.candidates.Keys && w.verifications.Keys == t.verifications.Keys
            && (forall k :: k in t.candidates ==>
                  w.candidates[k] == BeatCandidate(t.candidates[k], k.node == n, Mentions(es, k.endpoint), generation)
                  && w.verifications[k] == BeatVerification(t.verifications[k], k.node == n, Mentions(es, k.endpoint)))
  {
    var w := WithdrawMissing(m, n, generation);
    assert w.candidates.Keys == m.candidates.Keys && w.verifications.Keys == m.verifications.Keys;
    forall k | k in t.candidates
      ensures w.candidates[k] == BeatCandidate(t.candidates[k], k.node == n, Mentions(es, k.endpoint), generation)
      ensures w.verifications[k] == BeatVerification(t.verifications[k], k.node == n, Mentions(es, k.endpoint))
    {
      WithdrawRow(t, m, n, es, generation, k);
    }
  }

  lemma WithdrawRow(t: Registry, m: Registry, n: NodeId, es: seq<Reported>, generation: nat, k: EndpointKey)
    requires InStep(t) && InStep(m) && BehindOf(t, n, generation) && RefreshEffect(t, m, n, es, generation)
             && k in t.candidates
    ensures var w := WithdrawMissing(m, n, generation);
            && k in w.candidates && k in w.verifications
            && w.candidates[k] == BeatCandidate(t.candidates[k], k.node == n, Mentions(es, k.endpoint), generation)
            && w.verifications[k] == BeatVerification(t.verifications[k], k.node == n, Mentions(es, k.endpoint))
  {
  }

  lemma RecordEffect(t: Registry, q: Registry, n: NodeId, es: seq<Reported>, generation: nat, now: Time)
    requires InStep(t) && BehindOf(t, n, generation) && DistinctIds(es)
    requires RecordCandidates(t, n, es, generation, now) == Ok(q)
    ensures ReportEffect(t, q, n, es, generation)
  {
    hide RefreshAll, InsertAll, WithdrawMissing, InStep, BehindOf, RefreshEffect, InsertEffect;
    var m := RefreshAll(t, n, es, generation, now).value;
    RefreshAllEffect(t, m, n, es, generation, now);
    WithdrawEffect(t, m, n, es, generation);
    var w := WithdrawMissing(m, n, generation);
    var added := Unknown(t, n, es);
    InsertAllEffect(w, q, n, added, generation);
    UnknownElements(t, n, es);
    RecordParts(t, m, w, q, n, es, added, generation);
  }

  lemma RecordParts(t: Registry, m: Registry, w: Registry, q: Registry, n: NodeId, es: seq<Reported>,
                    added: seq<Reported>, generation: nat)
    requires InStep(t) && RefreshEffect(t, m, n, es, generation) && InsertEffect(w, q, n, added, generation)
    requires w == m.(candidates := w.candidates, verifications := w.verifications)
    requires w.candidates.Keys == t.candidates.Keys && w.verifications.Keys == t.verifications.Keys
    requires forall k :: k in t.candidates ==>
               w.candidates[k] == BeatCandidate(t.candidates[k], k.node == n, Mentions(es, k.endpoint), generation)
               && w.verifications[k] == BeatVerification(t.verifications[k], k.node == n, Mentions(es, k.endpoint))
    requires forall e :: e in added <==> e in es && EndpointKey(n, e.endpoint) !in t.candidates
    ensures ReportEffect(t, q, n, es, generation)
  {
    hide Touched, Inserted, NewRow, Mentions, OnlyCloses, ReportKept, BeatCandidate, BeatVerification;
    RecordNew(t, w, q, n, es, added, generation);
    assert q.verifications.Keys == q.candidates.Keys by {
      forall k ensures k in q.verifications <==> k in q.candidates {
      }
    }
  }

  lemma RecordNew(t: Registry, w: Registry, q: Registry, n: NodeId, es: seq<Reported>, added: seq<Reported>,
                  generation: nat)
    requires InsertEffect(w, q, n, added, generation)
    requires forall e :: e in added <==> e in es && EndpointKey(n, e.endpoint) !in t.candidates
    ensures forall k :: Touched(n, added, k) ==> k in q.candidates && k in q.verifications && Touched(n, es, k)
    ensures forall i :: 0 <= i < |es| && EndpointKey(n, es[i].endpoint) !in t.candidates ==>
              NewRow(q, n, es[i], generation)
  {
  }
}
