/** Main results about endpoints, over every run: evidence, leases, and exactly when a report is accepted. */
module EndpointTheorems {
  import opened Domain
  import opened DesiredState
  import opened Plane
  import opened Endpoints
  import opened Heartbeats
  import opened Evidence

  // ----- evidence -----

  /** A verified endpoint is current, and a protocol attempt for the same address, port and revision, not
      older than its verification generation, succeeded inside its lease. */
  lemma VerifiedHasEvidence(steps: seq<Step>, k: EndpointKey) returns (a: Attempt)
    requires k in Run(EmptyRegistry, steps).verifications && Run(EmptyRegistry, steps).verifications[k].status
             == Verified
    ensures var t := Run(EmptyRegistry, steps);
            && k in t.candidates && !t.candidates[k].withdrawn
            && a in t.attempts && Proves(a, k, t.candidates[k], t.verifications[k])
            && a.startedAt <= a.completedAt < a.ticket.claimExpires
  {
    hide Run, Inv;
    Reachable(steps);
    a := EvidenceFor(Run(EmptyRegistry, steps), k);
  }

  lemma EvidenceFor(t: Registry, k: EndpointKey) returns (a: Attempt)
    requires Inv(t) && k in t.verifications && t.verifications[k].status == Verified
    ensures k in t.candidates && !t.candidates[k].withdrawn
    ensures a in t.attempts && Proves(a, k, t.candidates[k], t.verifications[k])
    ensures a.startedAt <= a.completedAt < a.ticket.claimExpires
  {
    assert EvidenceOk(t, k);
    a :| a in t.attempts && Proves(a, k, t.candidates[k], t.verifications[k]);
    var i :| 0 <= i < |t.attempts| && t.attempts[i] == a;
    assert AttemptOk(t.attempts[i]);
  }

  /** An endpoint is shown as verified only if such an attempt succeeded in the last fifteen minutes. */
  lemma ShownVerifiedIsRecent(steps: seq<Step>, k: EndpointKey, now: Time) returns (a: Attempt)
    requires var t := Run(EmptyRegistry, steps);
             k in t.candidates && k in t.verifications && ReadinessOf(t, k, now) == ReadyVerified
    ensures var t := Run(EmptyRegistry, steps);
            && !t.candidates[k].withdrawn && a in t.attempts && Proves(a, k, t.candidates[k], t.verifications[k])
            && now < a.completedAt + VERIFICATION_LIFETIME
  {
    hide Run, Inv, Newest;
    Reachable(steps);
    a := EvidenceFor(Run(EmptyRegistry, steps), k);
  }

  /** A candidate is withdrawn exactly when its verification is. */
  lemma WithdrawnTogether(steps: seq<Step>, k: EndpointKey)
    ensures var t := Run(EmptyRegistry, steps);
            && (k in t.candidates <==> k in t.verifications)
            && (k in t.candidates ==> (t.candidates[k].withdrawn <==> t.verifications[k].status == Withdrawn))
  {
    hide Run;
    Reachable(steps);
  }

  /** Rotating the canary leaves no endpoint of the node verified. */
  lemma RotationUnverifies(t: Registry, n: NodeId, canary: nat, revision: nat, publicPort: Option<nat>, q: Registry,
                           k: EndpointKey)
    requires Endpoints.RotateCanary(t, n, canary, revision, publicPort) == Ok(q) && k.node == n && k in q.verifications
    ensures q.verifications[k].status != Verified
    ensures k in t.verifications && (q.verifications[k].status == Withdrawn <==> t.verifications[k].status == Withdrawn)
  {
  }

  // ----- attempts -----

  /** At most one attempt per node is claimed. */
  lemma OneClaimPerNode(steps: seq<Step>, i: nat, j: nat)
    requires var t := Run(EmptyRegistry, steps);
             i < |t.attempts| && j < |t.attempts| && t.attempts[i].status == Claimed && t.attempts[j].status == Claimed
             && t.attempts[i].ticket.node == t.attempts[j].ticket.node
    ensures i == j
  {
    hide Run;
    Reachable(steps);
    var t := Run(EmptyRegistry, steps);
    assert OneClaim(t.attempts);
  }

  /** An attempt that has ended never changes again. */
  lemma EndedForGood(t: Registry, more: seq<Step>, i: nat)
    requires Inv(t) && i < |t.attempts| && t.attempts[i].status != Claimed
    ensures i < |Run(t, more).attempts| && Run(t, more).attempts[i] == t.attempts[i]
  {
    hide Run, Inv;
    RunKeeps(t, more);
  }

  /** How a completion ends a claimed attempt, and that only a recorded protocol result touches a verification. */
  lemma CompletionExactly(t: Registry, job: Job, connected: bool, now: Time, out: Completed)
    requires Complete(t, job, connected, now) == Ok(out)
    ensures job.attempt < |t.attempts| && |out.registry.attempts| == |t.attempts|
    ensures out.registry.candidates == t.candidates
    ensures t.attempts[job.attempt].status != Claimed ==> out == Completed(t, AlreadyRecorded)
    ensures t.attempts[job.attempt].status == Claimed ==>
              out.registry.attempts[job.attempt].status
              == if now >= job.ticket.claimExpires then Expired
                 else if !Current(t, job.ticket, now) || (job.ticket.phase == Protocol && !CanaryCurrent(t, job))
                     then Cancelled
                 else if connected then Succeeded else FailedProbe
    ensures out.registry.verifications != t.verifications ==>
              out.completion == Recorded && job.ticket.phase == Protocol && CanaryCurrent(t, job)
                  && Current(t, job.ticket, now)
  {
    hide Current, CanaryCurrent;
    if t.attempts[job.attempt].status == Claimed && now < job.ticket.claimExpires {
      ClaimedCompletion(t, job, connected, now, out);
    }
  }

  lemma ClaimedCompletion(t: Registry, job: Job, connected: bool, now: Time, out: Completed)
    requires Complete(t, job, connected, now) == Ok(out) && t.attempts[job.attempt].status == Claimed
             && now < job.ticket.claimExpires
    ensures |out.registry.attempts| == |t.attempts| && out.registry.candidates == t.candidates
    ensures out.registry.attempts[job.attempt].status
            == if !Current(t, job.ticket, now) || (job.ticket.phase == Protocol && !CanaryCurrent(t, job))
                then Cancelled
               else if connected then Succeeded else FailedProbe
    ensures out.registry.verifications != t.verifications ==>
              out.completion == Recorded && job.ticket.phase == Protocol && CanaryCurrent(t, job)
                  && Current(t, job.ticket, now)
  {
    if Current(t, job.ticket, now) {
      CurrentKnown(t, job.ticket, now);
    }
    hide Current, CanaryCurrent, Verdict;
  }

  /** A claim is stale once the node has reported again, the endpoint was withdrawn, the node stopped
      being active or applied another revision. */
  lemma StaleNeverSucceeds(t: Registry, job: Job, connected: bool, now: Time, out: Completed)
    requires Complete(t, job, connected, now) == Ok(out) && t.attempts[job.attempt].status == Claimed
    requires var k := EndpointKey(job.ticket.node, job.ticket.endpoint);
             || now >= job.ticket.claimExpires
             || k !in t.candidates || t.candidates[k].withdrawn
                || t.candidates[k].lastGeneration != job.ticket.generation
             || k.node !in t.hosts || t.hosts[k.node].generation != job.ticket.generation
                || t.hosts[k.node].node.status != NodeActive
             || t.hosts[k.node].node.applied != job.ticket.revision
    ensures out.registry.attempts[job.attempt].status != Succeeded && out.registry.verifications == t.verifications
  {
    CompletionExactly(t, job, connected, now, out);
    hide Complete;
  }

  // ----- claims -----

  /** The newest match is a match, and everything after it is not. */
  lemma {:induction false} NewestIsLast(attempts: seq<Attempt>, matches: Attempt -> bool) returns (i: nat)
    requires Newest(attempts, matches).Some?
    ensures i < |attempts| && attempts[i] == Newest(attempts, matches).value && matches(attempts[i])
    ensures forall j :: i < j < |attempts| ==> !matches(attempts[j])
  {
    var last := |attempts| - 1;
    if matches(attempts[last]) {
      i := last;
    } else {
      i := NewestIsLast(attempts[..last], matches);
      forall j | i < j < |attempts| ensures !matches(attempts[j]) {
        assert j < last ==> attempts[..last][j] == attempts[j];
      }
    }
  }

  /** A granted job is for a current candidate of an active serving node that nobody else is probing, and its
      ticket is that candidate as it stands. */
  lemma ClaimMeaning(t: Registry, phase: Phase, choice: Option<EndpointKey>, claim: nat, options: Schedule, now: Time,
                     q: Registry, job: Job)
    requires Claim(t, phase, choice, claim, options, now) == Ok(Granted(q, Some(job)))
    ensures var k := EndpointKey(job.ticket.node, job.ticket.endpoint);
            && choice == Some(k) && k in q.candidates && !q.candidates[k].withdrawn && k.node in q.hosts
            && q.hosts[k.node].node.status == NodeActive && q.hosts[k.node].node.applied == job.ticket.revision
            && job.ticket.generation == q.candidates[k].lastGeneration == q.hosts[k.node].generation
            && job.ticket.address == q.candidates[k].report.address && job.ticket.port == q.candidates[k].report.port
            && job.ticket.revision == q.candidates[k].report.revision && job.ticket.phase == phase
            && job.ticket.claimExpires == now + options.lease > now
    ensures job.attempt == |t.attempts| && q.attempts[..job.attempt] == ExpireClaims(t.attempts, now)
    ensures |q.attempts| == job.attempt + 1 && q.attempts[job.attempt] == Attempt(job.ticket, Claimed, now, now)
    ensures forall i :: 0 <= i < job.attempt ==>
              !(q.attempts[i].status == Claimed && q.attempts[i].ticket.node == job.ticket.node)
  {
  }

  /** A protocol probe is handed out only after a recent successful TCP probe of the same address. */
  lemma ProtocolNeedsTcp(t: Registry, choice: Option<EndpointKey>, claim: nat, options: Schedule, now: Time,
                         q: Registry, job: Job)
    returns (a: Attempt)
    requires Claim(t, Protocol, choice, claim, options, now) == Ok(Granted(q, Some(job)))
    ensures a in ExpireClaims(t.attempts, now) && a.status == Succeeded && a.ticket.phase == Tcp
    ensures a.ticket.node == job.ticket.node && a.ticket.endpoint == job.ticket.endpoint
            && a.ticket.address == job.ticket.address
    ensures a.ticket.port == job.ticket.port && a.ticket.revision == job.ticket.revision
    ensures a.completedAt >= now - options.successInterval
    ensures var k := EndpointKey(job.ticket.node, job.ticket.endpoint);
            k in q.candidates && a.ticket.generation >= q.candidates[k].verificationGeneration
  {
    ClaimMeaning(t, Protocol, choice, claim, options, now, q, job);
    var swept := t.(attempts := ExpireClaims(t.attempts, now));
    hide ExpireClaims, Claim;
    ClaimDue(t, Protocol, choice, claim, options, now, q, job);
    a := TcpSuccess(swept, choice.value, options, now);
  }

  lemma ClaimDue(t: Registry, phase: Phase, choice: Option<EndpointKey>, claim: nat, options: Schedule, now: Time,
                 q: Registry, job: Job)
    requires Claim(t, phase, choice, claim, options, now) == Ok(Granted(q, Some(job)))
    ensures choice.Some? && Due(t.(attempts := ExpireClaims(t.attempts, now)), choice.value, phase, options, now)
    ensures q.candidates == t.candidates
  {
  }

  lemma TcpSuccess(t: Registry, k: EndpointKey, options: Schedule, now: Time) returns (a: Attempt)
    requires Due(t, k, Protocol, options, now)
    ensures k in t.candidates && a in t.attempts && a.status == Succeeded && OfEndpoint(a, k, Tcp)
    ensures a.ticket.address == t.candidates[k].report.address && a.ticket.port == t.candidates[k].report.port
    ensures a.ticket.revision == t.candidates[k].report.revision
            && a.ticket.generation >= t.candidates[k].verificationGeneration
    ensures a.completedAt >= now - options.successInterval
  {
    hide DueAgain, Idle;
    var c := t.candidates[k];
    var matches := (x: Attempt) => OfEndpoint(x, k, Tcp) && x.status == Succeeded
                                   && x.ticket.revision == c.report.revision && x.ticket.address == c.report.address
                                   && x.ticket.port == c.report.port && x.ticket.generation >= c.verificationGeneration;
    assert ProtocolReady(t, k, options, now);
    hide Newest;
    var i := NewestIsLast(t.attempts, matches);
    a := t.attempts[i];
  }

  // ----- the last report -----

  /** In every reachable state the current candidates of a node are exactly the endpoints of its last
      accepted heartbeat, unchanged, and all carry its generation. */
  lemma CurrentIsLastReport(steps: seq<Step>, n: NodeId, e: EndpointId)
    requires n in Run(EmptyRegistry, steps).hosts
    ensures var t := Run(EmptyRegistry, steps);
            var k := EndpointKey(n, e);
            && (k in t.candidates && !t.candidates[k].withdrawn <==>
                  t.hosts[n].last.Some? && exists r :: Reported(e, r) in t.hosts[n].last.value.endpoints)
            && (k in t.candidates && !t.candidates[k].withdrawn ==>
                  Reported(e, t.candidates[k].report) in t.hosts[n].last.value.endpoints
                  && t.candidates[k].lastGeneration == t.hosts[n].generation == t.hosts[n].last.value.generation)
  {
    hide Run;
    Reachable(steps);
    var t := Run(EmptyRegistry, steps);
    var k := EndpointKey(n, e);
    assert HostOk(t, n);
    if k in t.candidates {
      assert CandidateOk(t, k);
    }
    if t.hosts[n].last.Some? {
      forall r | Reported(e, r) in t.hosts[n].last.value.endpoints
        ensures k in t.candidates && !t.candidates[k].withdrawn {
        assert IsCurrent(t, n, Reported(e, r));
      }
    }
  }

  /** What an accepted report does to each endpoint of the node: mentioned ones become or stay current,
      all others are withdrawn; a verification survives only for an endpoint that stayed current. */
  lemma HeartbeatMeaning(t: Registry, n: NodeId, h: Heartbeat, now: Time, q: Registry, k: EndpointKey)
    requires Inv(t) && Beat(t, n, h, now) == Ok(q) && q != t && k in q.candidates && k in q.verifications
    ensures k.node != n ==>
              k in t.candidates && q.candidates[k] == t.candidates[k] && q.verifications[k] == t.verifications[k]
    ensures k.node == n ==>
              && (q.candidates[k].withdrawn <==> !Mentions(h.endpoints, k.endpoint))
              && (!q.candidates[k].withdrawn ==> q.candidates[k].lastGeneration == h.generation)
              && (k in t.candidates && !t.candidates[k].withdrawn && Mentions(h.endpoints, k.endpoint) ==>
                    q.verifications[k] == t.verifications[k]
                    && q.candidates[k].verificationGeneration == t.candidates[k].verificationGeneration)
              && ((k !in t.candidates || t.candidates[k].withdrawn) && Mentions(h.endpoints, k.endpoint) ==>
                    q.verifications[k].status == Unverified && q.candidates[k].verificationGeneration == h.generation)
  {
    InvStep(t);
    hide Inv, Beat, OnlyCloses;
    BeatCases(t, q, n, h, now);
    var s := Seen(t, n, h, now);
    if k !in t.candidates {
      assert Touched(n, h.endpoints, k);
      var i :| 0 <= i < |h.endpoints| && h.endpoints[i].endpoint == k.endpoint;
      assert NewRow(q, n, h.endpoints[i], h.generation);
    } else {
      assert q.candidates[k] == BeatCandidate(s.candidates[k], k.node == n, Mentions(h.endpoints, k.endpoint),
          h.generation);
    }
    hide Mentions;
  }

  lemma InvStep(t: Registry)
    requires Inv(t)
    ensures InStep(t)
  {
  }

  /** Repeating the last heartbeat changes nothing; an older or different one of that generation is refused. */
  lemma HeartbeatReplay(t: Registry, n: NodeId, h: Heartbeat, now: Time, q: Registry, g: Heartbeat, later: Time)
    requires Inv(t) && Beat(t, n, h, now) == Ok(q)
    ensures Beat(q, n, h, later) == Ok(q)
    ensures g.generation <= h.generation && g != h ==> Beat(q, n, g, later).Err?
  {
    hide Inv, RecordCandidates, ValidHeartbeat, Beaten;
    BeatCases(t, q, n, h, now);
    if Beaten(t, q, n, h, now) {
      BeatenHost(t, q, n, h, now);
    }
    BeatNeedsHost(t, n, h, now);
    if t.hosts[n].last.Some? {
      LastGeneration(t, n);
    }
  }

  lemma LastGeneration(t: Registry, n: NodeId)
    requires Inv(t) && n in t.hosts && t.hosts[n].last.Some?
    ensures t.hosts[n].last.value.generation == t.hosts[n].generation
  {
  }

  lemma BeatNeedsHost(t: Registry, n: NodeId, h: Heartbeat, now: Time)
    requires Beat(t, n, h, now).Ok?
    ensures ValidHeartbeat(h) && n in t.hosts && Admitted(t.hosts[n].node.status)
    ensures t.hosts[n].generation <= h.generation && (t.hosts[n].generation == h.generation ==>
              t.hosts[n].last == Some(h))
  {
  }

  lemma BeatenHost(t: Registry, q: Registry, n: NodeId, h: Heartbeat, now: Time)
    requires Beaten(t, q, n, h, now)
    ensures n in q.hosts && q.hosts[n].last == Some(h) && q.hosts[n].generation == h.generation
            && q.hosts[n].node.status == t.hosts[n].node.status
  {
  }

  // ----- exactly when a report is accepted -----

  /** What the report of one endpoint needs. */
  ghost predicate Acceptable(t: Registry, n: NodeId, e: Reported, now: Time) {
    var k := EndpointKey(n, e.endpoint);
    && PortMatches(t, n, e.report)
    && (k in t.candidates ==> t.candidates[k].report == e.report)
    && (k in t.candidates && t.candidates[k].withdrawn ==>
           !AddressHeld(t, n, e.endpoint, e.report) && CanCancel(t.attempts, k, now))
  }

  ghost predicate AllAcceptable(t: Registry, n: NodeId, es: seq<Reported>, now: Time) {
    forall i :: 0 <= i < |es| ==> Acceptable(t, n, es[i], now)
  }

  lemma AddressHeldElsewhere(t: Registry, m: Registry, n: NodeId, first: Reported, e: Reported)
    requires first.endpoint != e.endpoint && !SameAddress(first.report, e.report)
    requires var k := EndpointKey(n, first.endpoint);
             m.candidates == t.candidates
             || (k in t.candidates && t.candidates[k].report == first.report
                 && exists c: Candidate :: c.report == first.report && m.candidates == t.candidates[k := c])
    ensures AddressHeld(m, n, e.endpoint, e.report) <==> AddressHeld(t, n, e.endpoint, e.report)
  {
  }

  lemma CancelElsewhere(a: seq<Attempt>, k: EndpointKey, other: EndpointKey, now: Time, later: Time)
    requires k != other
    ensures CanCancel(CancelClaims(a, k, now), other, later) <==> CanCancel(a, other, later)
  {
    var b := CancelClaims(a, k, now);
    forall i | 0 <= i < |a| ensures Claims(b[i], other) <==> Claims(a[i], other) {
    }
  }

  /** Handling one endpoint does not change whether another one is acceptable. */
  lemma AcceptableElsewhere(t: Registry, m: Registry, n: NodeId, first: Reported, e: Reported, generation: nat,
                            now: Time)
    requires InStep(t) && RefreshCandidate(t, n, first, generation, now) == Ok(m)
    requires first.endpoint != e.endpoint && !SameAddress(first.report, e.report)
    ensures Acceptable(m, n, e, now) <==> Acceptable(t, n, e, now)
  {
    var k := EndpointKey(n, first.endpoint);
    RefreshOneCases(t, m, n, first, generation, now);
    if k in t.candidates {
      var c := RefreshedCandidate(t.candidates[k], generation);
      assert c.report == first.report && m.candidates == t.candidates[k := c];
    }
    AddressHeldElsewhere(t, m, n, first, e);
    CancelElsewhere(t.attempts, k, EndpointKey(n, e.endpoint), now, now);
    hide AddressHeld, CanCancel, CancelClaims, OnlyCloses;
  }

  lemma {:induction false} RefreshAllAccepts(t: Registry, n: NodeId, es: seq<Reported>, generation: nat, now: Time)
    requires InStep(t) && DistinctIds(es) && DistinctAddresses(es)
    ensures RefreshAll(t, n, es, generation, now).Ok? <==> AllAcceptable(t, n, es, now)
    decreases |es|
  {
    if es != [] {
      assert RefreshCandidate(t, n, es[0], generation, now).Ok? <==> Acceptable(t, n, es[0], now);
      hide RefreshCandidate, Acceptable, InStep;
      if RefreshCandidate(t, n, es[0], generation, now).Ok? {
        var m := RefreshCandidate(t, n, es[0], generation, now).value;
        RefreshOneEffect(t, m, n, es[0], generation, now);
        RefreshAllAccepts(m, n, es[1..], generation, now);
        forall i | 0 < i < |es| ensures Acceptable(m, n, es[1..][i - 1], now) <==> Acceptable(t, n, es[i], now) {
          AcceptableElsewhere(t, m, n, es[0], es[i], generation, now);
        }
        assert AllAcceptable(m, n, es[1..], now) <==> AllAcceptable(t, n, es, now) by {
          if AllAcceptable(m, n, es[1..], now) {
            forall i | 0 <= i < |es| ensures Acceptable(t, n, es[i], now) {
              if i > 0 {
                assert Acceptable(m, n, es[1..][i - 1], now);
              }
            }
          }
        }
      } else {
        assert !Acceptable(t, n, es[0], now);
      }
    }
  }

  /** Nothing current of the node uses an address to be inserted. */
  ghost predicate AddressesFree(w: Registry, n: NodeId, es: seq<Reported>) {
    forall i :: 0 <= i < |es| ==>
      EndpointKey(n, es[i].endpoint) !in w.candidates && !AddressHeld(w, n, es[i].endpoint, es[i].report)
  }

  ghost predicate Storable(w: Registry, n: NodeId, es: seq<Reported>) {
    forall i :: 0 <= i < |es| ==> RevisionKey(n, es[i].report.revision) in w.snapshots && Lasting(es[i].report)
  }

  lemma {:induction false} InsertAllAccepts(w: Registry, n: NodeId, es: seq<Reported>, generation: nat)
    requires w.verifications.Keys == w.candidates.Keys && DistinctIds(es) && DistinctAddresses(es)
             && AddressesFree(w, n, es)
    ensures InsertAll(w, n, es, generation).Ok? <==> Storable(w, n, es)
    decreases |es|
  {
    if es != [] {
      assert InsertCandidate(w, n, es[0], generation).Ok? <==>
            RevisionKey(n, es[0].report.revision) in w.snapshots && Lasting(es[0].report);
      if InsertCandidate(w, n, es[0], generation).Ok? {
        var m := InsertCandidate(w, n, es[0], generation).value;
        assert AddressesFree(m, n, es[1..]) by {
          forall j | 0 <= j < |es[1..]| ensures EndpointKey(n, es[1..][j].endpoint) !in m.candidates
                                        ensures !AddressHeld(m, n, es[1..][j].endpoint, es[1..][j].report)
          {
            assert es[1..][j] == es[j + 1];
            FreeAfterInsert(w, m, n, es[0], es[j + 1], generation);
          }
        }
        hide AddressesFree, InsertCandidate;
        InsertAllAccepts(m, n, es[1..], generation);
        assert Storable(m, n, es[1..]) <==> Storable(w, n, es) by {
          assert m.snapshots == w.snapshots by { InsertOneEffect(w, m, n, es[0], generation); }
          if Storable(m, n, es[1..]) {
            forall i | 0 <= i < |es|
              ensures RevisionKey(n, es[i].report.revision) in w.snapshots && Lasting(es[i].report)
            {
              if i > 0 {
                assert RevisionKey(n, es[1..][i - 1].report.revision) in m.snapshots && Lasting(es[1..][i - 1].report);
              }
            }
          }
        }
      }
    }
  }

  lemma FreeAfterInsert(w: Registry, m: Registry, n: NodeId, first: Reported, e: Reported, generation: nat)
    requires InsertCandidate(w, n, first, generation) == Ok(m)
    requires EndpointKey(n, e.endpoint) !in w.candidates && !AddressHeld(w, n, e.endpoint, e.report)
    requires first.endpoint != e.endpoint && !SameAddress(first.report, e.report)
    ensures EndpointKey(n, e.endpoint) !in m.candidates && !AddressHeld(m, n, e.endpoint, e.report)
  {
  }

  /** After withdrawing, the addresses of the new endpoints are free. */
  lemma NewAddressesFree(t: Registry, m: Registry, n: NodeId, es: seq<Reported>, generation: nat)
    requires InStep(t) && InStep(m) && BehindOf(t, n, generation) && RefreshEffect(t, m, n, es, generation)
    requires DistinctIds(es) && DistinctAddresses(es)
    ensures AddressesFree(WithdrawMissing(m, n, generation), n, Unknown(t, n, es))
  {
    var w := WithdrawMissing(m, n, generation);
    var added := Unknown(t, n, es);
    WithdrawEffect(t, m, n, es, generation);
    UnknownElements(t, n, es);
    forall i | 0 <= i < |added|
      ensures EndpointKey(n, added[i].endpoint) !in w.candidates && !AddressHeld(w, n, added[i].endpoint,
              added[i].report)
    {
      assert added[i] in es && EndpointKey(n, added[i].endpoint) !in t.candidates;
      NewAddressFree(t, m, w, n, es, added[i], generation);
    }
  }

  lemma NewAddressFree(t: Registry, m: Registry, w: Registry, n: NodeId, es: seq<Reported>, e: Reported,
                       generation: nat)
    requires RefreshEffect(t, m, n, es, generation) && w.candidates.Keys == t.candidates.Keys
    requires forall k :: k in t.candidates ==>
               w.candidates[k] == BeatCandidate(t.candidates[k], k.node == n, Mentions(es, k.endpoint), generation)
    requires DistinctAddresses(es) && e in es && EndpointKey(n, e.endpoint) !in t.candidates
    ensures !AddressHeld(w, n, e.endpoint, e.report)
  {
  }

  /** The report of a node is stored exactly when every reported endpoint is acceptable and the revision
      of every new one is known: nothing else can fail. */
  lemma RecordAccepts(t: Registry, n: NodeId, es: seq<Reported>, generation: nat, now: Time)
    requires InStep(t) && BehindOf(t, n, generation) && DistinctIds(es) && DistinctAddresses(es)
    ensures RecordCandidates(t, n, es, generation, now).Ok? <==>
            AllAcceptable(t, n, es, now) && Storable(t, n, Unknown(t, n, es))
  {
    hide RefreshAll, InsertAll, AllAcceptable, AddressesFree, InStep, BehindOf;
    RefreshAllAccepts(t, n, es, generation, now);
    if RefreshAll(t, n, es, generation, now).Ok? {
      var m := RefreshAll(t, n, es, generation, now).value;
      RefreshAllEffect(t, m, n, es, generation, now);
      NewAddressesFree(t, m, n, es, generation);
      WithdrawEffect(t, m, n, es, generation);
      UnknownDistinct(t, n, es);
      var w := WithdrawMissing(m, n, generation);
      SameSnapshots(t, m, w, n, es, generation);
      InsertAllAccepts(w, n, Unknown(t, n, es), generation);
    }
  }

  lemma SameSnapshots(t: Registry, m: Registry, w: Registry, n: NodeId, es: seq<Reported>, generation: nat)
    requires RefreshEffect(t, m, n, es, generation) && w == m.(candidates := w.candidates,
             verifications := w.verifications)
    requires InStep(t) && w.candidates.Keys == t.candidates.Keys && w.verifications.Keys == t.verifications.Keys
    ensures w.snapshots == t.snapshots && w.verifications.Keys == w.candidates.Keys
  {
  }

  lemma {:induction false} UnknownDistinct(t: Registry, n: NodeId, es: seq<Reported>)
    requires DistinctIds(es) && DistinctAddresses(es)
    ensures DistinctIds(Unknown(t, n, es)) && DistinctAddresses(Unknown(t, n, es))
  {
    UnknownElements(t, n, es);
    if es != [] {
      UnknownDistinct(t, n, es[1..]);
      UnknownElements(t, n, es[1..]);
      var rest := Unknown(t, n, es[1..]);
      forall j | 0 <= j < |rest| ensures !SameAddress(es[0].report, rest[j].report) {
        assert rest[j] in es[1..];
      }
    }
  }

  /** The reported revisions are the stored ones, the desired cursor moves forward within the node's own
      revisions, and the telemetry cursor does not go back. */
  ghost predicate ProgressAgrees(t: Registry, n: NodeId, h: Heartbeat)
    requires n in t.hosts
  {
    var node := t.hosts[n].node;
    && node.reported <= h.progress.desired
    && (h.progress.desired != 0 ==>
           h.progress.desired <= node.desired && RevisionKey(n, h.progress.desired) in t.snapshots)
    && h.progress.received == node.received && h.progress.validated == node.validated
       && h.progress.applied == node.applied
    && t.hosts[n].telemetryCursor <= h.telemetryCursor
  }

  /** A newer valid heartbeat of an admitted node is accepted exactly when its progress agrees and its
      endpoints are acceptable. */
  lemma HeartbeatAcceptedExactly(t: Registry, n: NodeId, h: Heartbeat, now: Time)
    requires Inv(t) && ValidHeartbeat(h) && n in t.hosts && t.hosts[n].generation < h.generation
    requires Admitted(t.hosts[n].node.status)
    ensures Beat(t, n, h, now).Ok? <==>
            && ProgressAgrees(t, n, h) && AllAcceptable(t, n, h.endpoints, now)
            && Storable(t, n, Unknown(t, n, h.endpoints))
  {
    hide Inv, RecordCandidates, ValidHeartbeat, HeartbeatProgress, ProgressAgrees, InStep, BehindOf, AllAcceptable,
         Storable, Seen;
    var s := Seen(t, n, h, now);
    SeenBehind(t, n, h, now);
    ValidIsDistinct(h);
    ProgressDecides(t, n, h);
    RecordAccepts(s, n, h.endpoints, h.generation, now);
    SeenAcceptable(t, n, h, now);
  }

  lemma SeenBehind(t: Registry, n: NodeId, h: Heartbeat, now: Time)
    requires Inv(t) && n in t.hosts && t.hosts[n].generation < h.generation
    ensures InStep(Seen(t, n, h, now)) && BehindOf(Seen(t, n, h, now), n, h.generation)
  {
    var s := Seen(t, n, h, now);
    forall k | k in s.candidates && k.node == n ensures s.candidates[k].lastGeneration < h.generation {
      assert CandidateOk(t, k);
    }
  }

  lemma ValidIsDistinct(h: Heartbeat)
    requires ValidHeartbeat(h)
    ensures DistinctIds(h.endpoints) && DistinctAddresses(h.endpoints)
  {
  }

  lemma ProgressDecides(t: Registry, n: NodeId, h: Heartbeat)
    requires n in t.hosts
    ensures HeartbeatProgress(t, n, h).None? <==> ProgressAgrees(t, n, h)
  {
  }

  lemma SeenAcceptable(t: Registry, n: NodeId, h: Heartbeat, now: Time)
    requires n in t.hosts
    ensures AllAcceptable(Seen(t, n, h, now), n, h.endpoints, now) <==> AllAcceptable(t, n, h.endpoints, now)
    ensures Unknown(Seen(t, n, h, now), n, h.endpoints) == Unknown(t, n, h.endpoints)
    ensures Storable(Seen(t, n, h, now), n, Unknown(t, n, h.endpoints)) <==> Storable(t, n, Unknown(t, n, h.endpoints))
  {
    var s := Seen(t, n, h, now);
    forall i | 0 <= i < |h.endpoints|
      ensures Acceptable(s, n, h.endpoints[i], now) <==> Acceptable(t, n, h.endpoints[i], now) {
    }
    UnknownSame(t, s, n, h.endpoints);
  }

  lemma {:induction false} UnknownSame(t: Registry, s: Registry, n: NodeId, es: seq<Reported>)
    requires s.candidates == t.candidates
    ensures Unknown(s, n, es) == Unknown(t, n, es)
  {
    if es != [] {
      UnknownSame(t, s, n, es[1..]);
    }
  }

  /** The order of the statements costs availability: a withdrawn endpoint whose address is held by another
      current endpoint cannot be reported again, although the same report would withdraw that other one. */
  lemma TakenOverAddressIsRefused(t: Registry, n: NodeId, h: Heartbeat, now: Time, e: Reported)
    requires Inv(t) && e in h.endpoints && n in t.hosts && t.hosts[n].generation < h.generation
    requires EndpointKey(n, e.endpoint) in t.candidates && t.candidates[EndpointKey(n, e.endpoint)].withdrawn
    requires AddressHeld(t, n, e.endpoint, e.report)
    ensures Beat(t, n, h, now).Err?
  {
    hide Inv, Beat;
    assert !AllAcceptable(t, n, h.endpoints, now) by {
      var i :| 0 <= i < |h.endpoints| && h.endpoints[i] == e;
      assert !Acceptable(t, n, h.endpoints[i], now);
    }
    hide AllAcceptable;
    if Beat(t, n, h, now).Ok? {
      BeatNeedsHost(t, n, h, now);
      HeartbeatAcceptedExactly(t, n, h, now);
      assert false;
    }
  }

  const PORT_443: Report := Report(Direct, Manual, "a", 443, 1, 0, None)

  function Reporting(generation: nat, e: EndpointId): Heartbeat {
    Heartbeat(generation, "1", None, Serving, Progress(1, 1, 1, 1), false, [Reported(e, PORT_443)], 0)
  }

  lemma ReportingIsValid(generation: nat, e: EndpointId)
    requires generation > 0
    ensures ValidHeartbeat(Reporting(generation, e))
  {
    assert Utf8Length("1") == 1 && Utf8Length("a") == 1;
  }

  /** One active node that has applied a revision with public port 443. */
  const ServingRow: Node := Node(NodeActive, 1, 1, 1, 1, 1, true, "1")

  const ServingNode: Registry :=
    Registry(map[1 := Host(ServingRow, 0, 0, None, None)],
             map[RevisionKey(1, 1) := Snapshot(Some(443), 7)], map[1 := 7], map[], map[], [])

  const ServingNodeSteps: seq<Step> := [DoAddHost(1, ServingRow), DoAddRevision(1, 1, Some(443), 7)]

  lemma ServingNodeReached()
    ensures Run(EmptyRegistry, ServingNodeSteps) == ServingNode && Inv(ServingNode)
  {
    var added := After(EmptyRegistry, ServingNodeSteps[0]);
    assert After(added, ServingNodeSteps[1]) == ServingNode;
    assert ServingNodeSteps[1..][1..] == [];
    assert Run(ServingNode, []) == ServingNode;
  }

  /** A concrete run: endpoint 1 is reported, then endpoint 2 at the same address, then endpoint 1 again;
      the third heartbeat is valid and newer, and is refused. */
  lemma TakeOverExample() returns (second: Registry)
    ensures exists first ::
              Beat(ServingNode, 1, Reporting(1, 1), 0) == Ok(first) && Beat(first, 1, Reporting(2, 2), 0) == Ok(second)
    ensures ValidHeartbeat(Reporting(3, 1)) && 1 in second.hosts && second.hosts[1].generation < 3
    ensures Beat(second, 1, Reporting(3, 1), 0).Err?
  {
    ServingNodeReached();
    ReportingIsValid(3, 1);
    hide Run, Inv, Beat, RecordCandidates, ValidHeartbeat;
    var first := AcceptFirst(ServingNode, 1, 1);
    second := AcceptFirst(first, 2, 2);
    ThirdIsRefused(first, second);
  }

  lemma ThirdIsRefused(first: Registry, second: Registry)
    requires Inv(first) && Inv(second) && Beat(first, 1, Reporting(2, 2), 0) == Ok(second) && second != first
    requires 1 in first.hosts && 1 in second.hosts && second.hosts[1].generation == 2
    requires EndpointKey(1, 1) in first.candidates && first.candidates[EndpointKey(1, 1)].report == PORT_443
    requires EndpointKey(1, 2) in second.candidates && !second.candidates[EndpointKey(1, 2)].withdrawn
    requires second.candidates[EndpointKey(1, 2)].report == PORT_443
    ensures Beat(second, 1, Reporting(3, 1), 0).Err?
  {
    hide Inv, Beat;
    var a := EndpointKey(1, 1);
    BeatKeepsRow(first, second, Reporting(2, 2), a);
    assert !Mentions(Reporting(2, 2).endpoints, 1);
    HeartbeatMeaning(first, 1, Reporting(2, 2), 0, second, a);
    assert AddressHeld(second, 1, 1, PORT_443);
    assert Reporting(3, 1).endpoints[0] == Reported(1, PORT_443);
    TakenOverAddressIsRefused(second, 1, Reporting(3, 1), 0, Reported(1, PORT_443));
  }

  lemma BeatKeepsRow(t: Registry, q: Registry, h: Heartbeat, k: EndpointKey)
    requires Inv(t) && Beat(t, 1, h, 0) == Ok(q) && k in t.candidates
    ensures k in q.candidates && k in q.verifications
  {
    InvStep(t);
    hide Inv, Beat;
    BeatCases(t, q, 1, h, 0);
  }

  lemma AcceptFirst(t: Registry, generation: nat, e: EndpointId) returns (q: Registry)
    requires Inv(t) && 1 in t.hosts && t.hosts[1].node == ServingRow && t.hosts[1].telemetryCursor == 0
    requires t.hosts[1].generation < generation
    requires RevisionKey(1, 1) in t.snapshots && t.snapshots[RevisionKey(1, 1)].publicPort == Some(443)
    requires EndpointKey(1, e) !in t.candidates
    ensures Beat(t, 1, Reporting(generation, e), 0) == Ok(q) && Inv(q) && q != t
    ensures 1 in q.hosts && q.hosts[1] == t.hosts[1].(generation := generation, last := Some(Reporting(generation, e)),
            lastSeen := Some(0))
    ensures q.snapshots == t.snapshots
    ensures EndpointKey(1, e) in q.candidates && q.candidates[EndpointKey(1, e)]
            == Candidate(PORT_443, generation, generation, false)
    ensures forall k :: k in q.candidates && k !in t.candidates ==> k == EndpointKey(1, e)
  {
    var h := Reporting(generation, e);
    hide Inv, Beat, ValidHeartbeat;
    ReportingIsValid(generation, e);
    assert h.endpoints == [Reported(e, PORT_443)];
    assert AllAcceptable(t, 1, h.endpoints, 0);
    UnknownElements(t, 1, h.endpoints);
    assert Storable(t, 1, Unknown(t, 1, h.endpoints)) by {
      forall i | 0 <= i < |Unknown(t, 1, h.endpoints)| ensures Unknown(t, 1, h.endpoints)[i].report.revision == 1 {
        assert Unknown(t, 1, h.endpoints)[i] in h.endpoints;
      }
    }
    HeartbeatAcceptedExactly(t, 1, h, 0);
    q := Beat(t, 1, h, 0).value;
    BeatCases(t, q, 1, h, 0);
    if t.hosts[1].last.Some? {
      LastGeneration(t, 1);
    }
    BeatenKeeps(t, q, 1, h, 0);
    assert NewRow(q, 1, h.endpoints[0], generation);
    hide OnlyCloses;
    forall k | k in q.candidates && k !in t.candidates ensures k == EndpointKey(1, e) {
      assert Touched(1, h.endpoints, k);
    }
  }
}
