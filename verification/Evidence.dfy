/** What every run of heartbeats, probes and publications keeps: current candidates are the last report,
    a verified endpoint has fresh evidence, and attempts end once. */
module Evidence {
  import opened Domain
  import opened DesiredState
  import opened Plane
  import opened Endpoints
  import opened Heartbeats

  // ----- invariants -----

  /** Generations are ordered, and a current candidate belongs to its node's last heartbeat. */
  ghost predicate CandidateOk(t: Registry, k: EndpointKey)
    requires k in t.candidates
  {
    var c := t.candidates[k];
    && k.node in t.hosts && c.verificationGeneration <= c.lastGeneration <= t.hosts[k.node].generation
    && RevisionKey(k.node, c.report.revision) in t.snapshots
    && (!c.withdrawn ==>
          && c.lastGeneration == t.hosts[k.node].generation && t.hosts[k.node].last.Some?
          && Reported(k.endpoint, c.report) in t.hosts[k.node].last.value.endpoints)
  }

  /** The last heartbeat carries the node's generation and all its endpoints are current candidates. */
  ghost predicate HostOk(t: Registry, n: NodeId)
    requires n in t.hosts
  {
    var host := t.hosts[n];
    && (host.last.None? ==> host.generation == 0)
    && (host.last.Some? ==>
          && ValidHeartbeat(host.last.value) && host.last.value.generation == host.generation
          && forall e :: e in host.last.value.endpoints ==> IsCurrent(t, n, e))
  }

  ghost predicate IsCurrent(t: Registry, n: NodeId, e: Reported) {
    var k := EndpointKey(n, e.endpoint);
    k in t.candidates && !t.candidates[k].withdrawn && t.candidates[k].report == e.report
  }

  /** A successful protocol attempt for exactly this candidate, not older than its verification
      generation, completed when the verification says. */
  ghost predicate Proves(a: Attempt, k: EndpointKey, c: Candidate, v: Verification) {
    && a.status == Succeeded && OfEndpoint(a, k, Protocol)
    && a.ticket.address == c.report.address && a.ticket.port == c.report.port && a.ticket.revision == c.report.revision
    && a.ticket.generation >= c.verificationGeneration
    && v.lastSuccess == Some(a.completedAt) && v.expires == Some(a.completedAt + VERIFICATION_LIFETIME)
  }

  ghost predicate EvidenceOk(t: Registry, k: EndpointKey)
    requires k in t.candidates && k in t.verifications
  {
    t.verifications[k].status == Verified ==>
          exists a :: a in t.attempts && Proves(a, k, t.candidates[k], t.verifications[k])
  }

  ghost predicate OneClaim(attempts: seq<Attempt>) {
    forall i, j :: 0 <= i < j < |attempts| && attempts[i].status == Claimed && attempts[j].status == Claimed ==>
      attempts[i].ticket.node != attempts[j].ticket.node
  }

  /** A success was recorded inside its lease. */
  ghost predicate AttemptOk(a: Attempt) {
    a.startedAt < a.ticket.claimExpires && (a.status == Succeeded ==>
          a.startedAt <= a.completedAt < a.ticket.claimExpires)
  }

  ghost predicate AttemptsOk(attempts: seq<Attempt>) {
    OneClaim(attempts) && forall i :: 0 <= i < |attempts| ==> AttemptOk(attempts[i])
  }

  ghost predicate CandidatesOk(t: Registry) {
    forall k :: k in t.candidates ==> CandidateOk(t, k)
  }

  ghost predicate HostsOk(t: Registry) {
    forall n :: n in t.hosts ==> HostOk(t, n)
  }

  ghost predicate AllEvidence(t: Registry)
    requires InStep(t)
  {
    forall k :: k in t.candidates ==> EvidenceOk(t, k)
  }

  ghost predicate Inv(t: Registry) {
    InStep(t) && CandidatesOk(t) && HostsOk(t) && AllEvidence(t) && AttemptsOk(t.attempts)
  }

  // ----- attempts -----

  lemma ClosesGrow(a: seq<Attempt>, b: seq<Attempt>)
    requires OnlyCloses(a, b)
    ensures AttemptsGrow(a, b) && (AttemptsOk(a) ==> AttemptsOk(b))
    ensures forall x :: x in a && x.status != Claimed ==> x in b
  {
  }

  /** Evidence stays evidence while no succeeded attempt is lost. */
  lemma EvidenceStays(t: Registry, q: Registry, k: EndpointKey)
    requires k in t.candidates && k in t.verifications && k in q.candidates && k in q.verifications && EvidenceOk(t, k)
    requires forall x :: x in t.attempts && x.status != Claimed ==> x in q.attempts
    requires q.verifications[k].status == Verified ==> q.verifications[k] == t.verifications[k]
    requires q.candidates[k].report == t.candidates[k].report
    requires q.verifications[k].status == Verified ==>
               q.candidates[k].verificationGeneration == t.candidates[k].verificationGeneration
    ensures EvidenceOk(q, k)
  {
  }

  // ----- heartbeats -----

  lemma ReportKeepsStep(t: Registry, q: Registry, n: NodeId, es: seq<Reported>, generation: nat)
    requires InStep(t) && ReportEffect(t, q, n, es, generation)
    ensures InStep(q)
  {
  }

  lemma ReportKeepsEvidence(t: Registry, q: Registry, n: NodeId, es: seq<Reported>, generation: nat, k: EndpointKey)
    requires InStep(t) && AllEvidence(t) && ReportEffect(t, q, n, es, generation) && k in q.candidates
             && k in q.verifications
    ensures EvidenceOk(q, k)
  {
    ClosesGrow(t.attempts, q.attempts);
    hide OnlyCloses, AttemptsOk, AttemptsGrow;
    if k in t.candidates {
      assert EvidenceOk(t, k);
      EvidenceStays(t, q, k);
    } else {
      var i :| 0 <= i < |es| && es[i].endpoint == k.endpoint;
      assert NewRow(q, n, es[i], generation);
    }
  }

  /** The heartbeat of node `n` as a change from `t` (before) to `q` (after). */
  ghost predicate Beaten(t: Registry, q: Registry, n: NodeId, h: Heartbeat, now: Time) {
    && n in t.hosts && ValidHeartbeat(h) && t.hosts[n].generation < h.generation
    && ReportEffect(Seen(t, n, h, now), q, n, h.endpoints, h.generation)
  }

  lemma BeatCases(t: Registry, q: Registry, n: NodeId, h: Heartbeat, now: Time)
    requires Inv(t) && Beat(t, n, h, now) == Ok(q)
    ensures (q == t && n in t.hosts && t.hosts[n].last == Some(h)) || Beaten(t, q, n, h, now)
  {
    hide RecordCandidates, ReportEffect, AllEvidence;
    if h.generation > t.hosts[n].generation {
      var s := Seen(t, n, h, now);
      assert InStep(s);
      assert BehindOf(s, n, h.generation) by {
        forall k | k in s.candidates && k.node == n ensures s.candidates[k].lastGeneration < h.generation {
          assert CandidateOk(t, k);
        }
      }
      RecordEffect(s, q, n, h.endpoints, h.generation, now);
    }
  }

  lemma BeatenKeepsCandidate(t: Registry, q: Registry, n: NodeId, h: Heartbeat, now: Time, k: EndpointKey)
    requires CandidatesOk(t) && Beaten(t, q, n, h, now) && k in q.candidates
    ensures CandidateOk(q, k)
  {
    hide OnlyCloses, ValidReport, ShortText;
    if k in t.candidates {
      assert CandidateOk(t, k);
      if k.node == n && Mentions(h.endpoints, k.endpoint) {
        var i :| 0 <= i < |h.endpoints| && h.endpoints[i].endpoint == k.endpoint;
        assert ReportKept(Seen(t, n, h, now), n, h.endpoints[i]);
        assert h.endpoints[i] == Reported(k.endpoint, q.candidates[k].report);
      }
    } else {
      var i :| 0 <= i < |h.endpoints| && h.endpoints[i].endpoint == k.endpoint;
      assert NewRow(q, n, h.endpoints[i], h.generation);
      assert h.endpoints[i] == Reported(k.endpoint, q.candidates[k].report);
    }
  }

  lemma BeatenCurrent(t: Registry, q: Registry, n: NodeId, h: Heartbeat, now: Time, e: Reported)
    requires Beaten(t, q, n, h, now) && e in h.endpoints
    ensures IsCurrent(q, n, e)
  {
  }

  lemma BeatenKeepsHost(t: Registry, q: Registry, n: NodeId, h: Heartbeat, now: Time, m: NodeId)
    requires HostsOk(t) && Beaten(t, q, n, h, now) && m in q.hosts
    ensures HostOk(q, m)
  {
    if m == n {
      forall e | e in h.endpoints ensures IsCurrent(q, n, e) {
        BeatenCurrent(t, q, n, h, now, e);
      }
    } else {
      assert HostOk(t, m);
      forall e | t.hosts[m].last.Some? && e in t.hosts[m].last.value.endpoints ensures IsCurrent(q, m, e) {
        assert IsCurrent(t, m, e);
        assert EndpointKey(m, e.endpoint) in t.candidates;
      }
    }
    hide OnlyCloses, Mentions, ReportKept, NewRow, ValidHeartbeat;
  }

  lemma BeatenKeeps(t: Registry, q: Registry, n: NodeId, h: Heartbeat, now: Time)
    requires Inv(t) && Beaten(t, q, n, h, now)
    ensures Inv(q) && AttemptsGrow(t.attempts, q.attempts)
  {
    hide ValidReport, ShortText, ValidHeartbeat;
    var s := Seen(t, n, h, now);
    assert InStep(s) && AllEvidence(s) by {
      forall k | k in s.candidates ensures EvidenceOk(s, k) {
        assert EvidenceOk(t, k);
      }
    }
    hide Seen, ReportEffect;
    SeenParts(t, q, n, h, now);
    ReportKeepsStep(s, q, n, h.endpoints, h.generation);
    forall k | k in q.candidates ensures CandidateOk(q, k) && EvidenceOk(q, k) {
      BeatenKeepsCandidate(t, q, n, h, now, k);
      ReportKeepsEvidence(s, q, n, h.endpoints, h.generation, k);
    }
    forall m | m in q.hosts ensures HostOk(q, m) {
      BeatenKeepsHost(t, q, n, h, now, m);
    }
    ClosesGrow(t.attempts, q.attempts);
    hide CandidateOk, EvidenceOk, HostOk, InStep, AttemptsOk, OnlyCloses;
  }

  lemma SeenParts(t: Registry, q: Registry, n: NodeId, h: Heartbeat, now: Time)
    requires Beaten(t, q, n, h, now)
    ensures OnlyCloses(t.attempts, q.attempts) && ReportEffect(Seen(t, n, h, now), q, n, h.endpoints, h.generation)
  {
  }

  // ----- claims -----

  lemma ExpireCloses(attempts: seq<Attempt>, now: Time)
    ensures OnlyCloses(attempts, ExpireClaims(attempts, now))
  {
  }

  /** Host invariants look only at the candidates and the last heartbeats. */
  lemma HostsStay(t: Registry, q: Registry)
    requires HostsOk(t) && q.candidates == t.candidates
    requires forall n :: n in t.hosts ==>
               n in q.hosts && q.hosts[n].generation == t.hosts[n].generation && q.hosts[n].last == t.hosts[n].last
    requires forall n :: n in q.hosts && n !in t.hosts ==> q.hosts[n].generation == 0 && q.hosts[n].last.None?
    ensures HostsOk(q)
  {
  }

  lemma CandidatesStay(t: Registry, q: Registry)
    requires CandidatesOk(t) && q.candidates == t.candidates && (forall r :: r in t.snapshots ==> r in q.snapshots)
    requires forall n :: n in t.hosts ==>
               n in q.hosts && q.hosts[n].generation == t.hosts[n].generation && q.hosts[n].last == t.hosts[n].last
    ensures CandidatesOk(q)
  {
  }

  /** Changing attempts alone keeps everything else, if no finished attempt is lost. */
  lemma AttemptsChange(t: Registry, q: Registry)
    requires Inv(t) && q == t.(attempts := q.attempts) && AttemptsOk(q.attempts)
    requires forall x :: x in t.attempts && x.status != Claimed ==> x in q.attempts
    ensures Inv(q)
  {
  }

  lemma NewClaimOk(attempts: seq<Attempt>, a: Attempt)
    requires AttemptsOk(attempts) && AttemptOk(a)
    requires forall i :: 0 <= i < |attempts| ==>
               !(attempts[i].status == Claimed && attempts[i].ticket.node == a.ticket.node)
    ensures AttemptsOk(attempts + [a]) && AttemptsGrow(attempts, attempts + [a])
    ensures forall x :: x in attempts ==> x in attempts + [a]
  {
  }

  lemma ClaimKeeps(t: Registry, phase: Phase, choice: Option<EndpointKey>, claim: nat, options: Schedule, now: Time,
                   out: Granted)
    requires Inv(t) && Claim(t, phase, choice, claim, options, now) == Ok(out)
    ensures Inv(out.registry) && AttemptsGrow(t.attempts, out.registry.attempts)
  {
    hide Inv, AttemptsOk, AttemptsGrow, OnlyCloses, ExpireClaims, Probeable, DueAgain, ProtocolReady;
    InvAttempts(t);
    ExpireCloses(t.attempts, now);
    ClosesGrow(t.attempts, ExpireClaims(t.attempts, now));
    var swept := t.(attempts := ExpireClaims(t.attempts, now));
    AttemptsChange(t, swept);
    if out.registry != swept {
      var a := out.registry.attempts[|swept.attempts|];
      assert out.registry.attempts == swept.attempts + [a];
      NewClaimOk(swept.attempts, a);
      AttemptsChange(swept, out.registry);
      AttemptsGrowTransitive(t.attempts, swept.attempts, out.registry.attempts);
    }
  }

  lemma InvAttempts(t: Registry)
    requires Inv(t)
    ensures AttemptsOk(t.attempts)
  {
  }

  // ----- completion -----

  lemma FinishOk(attempts: seq<Attempt>, i: nat, status: AttemptStatus, now: Time)
    requires AttemptsOk(attempts) && i < |attempts| && attempts[i].status == Claimed && status != Claimed
    requires status == Succeeded ==> attempts[i].startedAt <= now < attempts[i].ticket.claimExpires
    ensures var b := attempts[i := attempts[i].(status := status, completedAt := now)];
            && AttemptsOk(b) && AttemptsGrow(attempts, b)
            && (forall x :: x in attempts && x.status != Claimed ==> x in b) && b[i] in b
  {
  }

  lemma FinishKeeps(t: Registry, i: nat, status: AttemptStatus, now: Time)
    requires Inv(t) && i < |t.attempts| && t.attempts[i].status == Claimed && status != Claimed
    requires status == Succeeded ==> t.attempts[i].startedAt <= now < t.attempts[i].ticket.claimExpires
    ensures Inv(Finish(t, i, status, now)) && AttemptsGrow(t.attempts, Finish(t, i, status, now).attempts)
  {
    hide Inv, AttemptsOk, AttemptsGrow;
    InvAttempts(t);
    FinishOk(t.attempts, i, status, now);
    AttemptsChange(t, Finish(t, i, status, now));
  }

  /** Replacing one verification that is not withdrawn, with evidence when it says verified. */
  lemma VerdictKeeps(t: Registry, k: EndpointKey, v: Verification)
    requires Inv(t) && k in t.verifications && t.verifications[k].status != Withdrawn && v.status != Withdrawn
    requires k in t.candidates
    requires v.status == Verified ==> exists a :: a in t.attempts && Proves(a, k, t.candidates[k], v)
    ensures Inv(t.(verifications := t.verifications[k := v]))
  {
    var q := t.(verifications := t.verifications[k := v]);
    hide CandidatesOk, HostsOk, AttemptsOk;
    CandidatesStay(t, q);
    HostsStay(t, q);
    assert InStep(q);
    forall x | x in q.candidates ensures EvidenceOk(q, x) {
      assert EvidenceOk(t, x);
    }
  }

  /** A recorded protocol result: the finished attempt is the evidence. */
  lemma ProtocolRecorded(t: Registry, job: Job, connected: bool, now: Time, v: Verification)
    requires Inv(t) && job.attempt < |t.attempts|
    requires t.attempts[job.attempt].ticket == job.ticket && t.attempts[job.attempt].status == Claimed
    requires job.ticket.phase == Protocol && t.attempts[job.attempt].startedAt <= now < job.ticket.claimExpires
    requires Current(t, job.ticket, now)
    requires Verdict(t.verifications[EndpointKey(job.ticket.node, job.ticket.endpoint)], connected, now) == Ok(v)
    ensures var finished := Finish(t, job.attempt, if connected then Succeeded else FailedProbe, now);
            var q := finished.(verifications := t.verifications[EndpointKey(job.ticket.node, job.ticket.endpoint) :=
                v]);
            Inv(q) && AttemptsGrow(t.attempts, q.attempts)
  {
    hide Inv, AttemptsGrow;
    var k := EndpointKey(job.ticket.node, job.ticket.endpoint);
    CurrentCandidate(t, job.ticket, now);
    hide Current;
    var status := if connected then Succeeded else FailedProbe;
    var finished := Finish(t, job.attempt, status, now);
    FinishKeeps(t, job.attempt, status, now);
    var a := finished.attempts[job.attempt];
    assert a in finished.attempts;
    if connected {
      assert Proves(a, k, finished.candidates[k], v);
    }
    VerdictKeeps(finished, k, v);
  }

  lemma CurrentCandidate(t: Registry, g: Ticket, now: Time)
    requires Inv(t) && Current(t, g, now)
    ensures var k := EndpointKey(g.node, g.endpoint);
            && k in t.candidates && k in t.verifications && t.verifications[k].status != Withdrawn
            && t.candidates[k].verificationGeneration <= g.generation
            && t.candidates[k].report.address == g.address && t.candidates[k].report.port == g.port
            && t.candidates[k].report.revision == g.revision
  {
  }

  lemma CompleteKeeps(t: Registry, job: Job, connected: bool, now: Time, out: Completed)
    requires Inv(t) && Complete(t, job, connected, now) == Ok(out)
    ensures Inv(out.registry) && AttemptsGrow(t.attempts, out.registry.attempts)
  {
    hide Inv, AttemptsGrow, Finish, Current, CanaryCurrent, Verdict;
    var a := t.attempts[job.attempt];
    if a.status != Claimed {
      assert AttemptsGrow(t.attempts, t.attempts) by { GrowNothing(t.attempts); }
    } else if now >= a.ticket.claimExpires {
      FinishKeeps(t, job.attempt, Expired, now);
    } else if !Current(t, job.ticket, now) || (job.ticket.phase == Protocol && !CanaryCurrent(t, job)) {
      FinishKeeps(t, job.attempt, Cancelled, now);
    } else if job.ticket.phase == Tcp {
      FinishKeeps(t, job.attempt, if connected then Succeeded else FailedProbe, now);
    } else {
      CurrentKnown(t, job.ticket, now);
      var v := Verdict(t.verifications[EndpointKey(job.ticket.node, job.ticket.endpoint)], connected, now).value;
      ProtocolRecorded(t, job, connected, now, v);
    }
  }

  lemma CurrentKnown(t: Registry, g: Ticket, now: Time)
    requires Current(t, g, now)
    ensures EndpointKey(g.node, g.endpoint) in t.verifications && EndpointKey(g.node, g.endpoint) in t.candidates
  {
  }

  lemma GrowNothing(a: seq<Attempt>)
    ensures AttemptsGrow(a, a)
  {
  }

  /** Claims and completions touch attempts and verifications only. */
  lemma ClaimFrame(t: Registry, phase: Phase, choice: Option<EndpointKey>, claim: nat, options: Schedule, now: Time)
    ensures match Claim(t, phase, choice, claim, options, now)
            case Err(_) => true
            case Ok(out) => out.registry == t.(attempts := out.registry.attempts)
  {
    hide Due, ExpireClaims;
  }

  lemma CompleteFrame(t: Registry, job: Job, connected: bool, now: Time)
    ensures match Complete(t, job, connected, now)
            case Err(_) => true
            case Ok(out) => out.registry == t.(attempts := out.registry.attempts,
                verifications := out.registry.verifications)
  {
    hide Current, CanaryCurrent, Verdict;
    if job.attempt < |t.attempts| && Current(t, job.ticket, now) {
      CurrentKnown(t, job.ticket, now);
    }
  }

  // ----- changes from the control plane -----

  ghost predicate KeptOrReset(v: Verification, w: Verification) {
    w == v || (v.status != Withdrawn && w == Verification(Unverified, None, None))
  }

  /** Hosts gain or change status and applied cursor, revisions are added, verifications of a node reset. */
  ghost predicate PlaneChange(t: Registry, q: Registry) {
    && q.candidates == t.candidates && q.attempts == t.attempts
    && q.verifications.Keys == t.verifications.Keys
    && (forall k :: k in t.verifications ==> KeptOrReset(t.verifications[k], q.verifications[k]))
    && (forall n :: n in t.hosts ==>
           n in q.hosts && q.hosts[n].generation == t.hosts[n].generation && q.hosts[n].last == t.hosts[n].last)
    && (forall n :: n in q.hosts && n !in t.hosts ==> q.hosts[n].generation == 0 && q.hosts[n].last.None?)
    && (forall r :: r in t.snapshots ==> r in q.snapshots)
  }

  lemma PlaneChangeKeeps(t: Registry, q: Registry)
    requires Inv(t) && PlaneChange(t, q)
    ensures Inv(q) && AttemptsGrow(t.attempts, q.attempts)
  {
    hide CandidatesOk, HostsOk, AttemptsOk, AttemptsGrow, EvidenceOk;
    GrowNothing(t.attempts);
    CandidatesStay(t, q);
    HostsStay(t, q);
    PlaneChangeStep(t, q);
    forall k | k in q.candidates ensures EvidenceOk(q, k) {
      assert EvidenceOk(t, k);
      EvidenceStays(t, q, k);
    }
  }

  lemma PlaneChangeStep(t: Registry, q: Registry)
    requires InStep(t) && PlaneChange(t, q)
    ensures InStep(q)
  {
  }

  lemma PlaneSteps(t: Registry, step: Step, q: Registry)
    requires step.DoAddHost? || step.DoSetHost? || step.DoAddRevision? || step.DoRotateCanary?
    requires Outcomes(t, step) == Ok(q)
    ensures PlaneChange(t, q)
  {
  }

  // ----- runs -----

  lemma StepKeeps(t: Registry, step: Step)
    requires Inv(t)
    ensures Inv(After(t, step)) && AttemptsGrow(t.attempts, After(t, step).attempts)
  {
    hide Inv, AttemptsGrow, Beat, Claim, Complete, PlaneChange, Beaten, AddHost, SetHost, AddRevision,
         Endpoints.RotateCanary;
    GrowNothing(t.attempts);
    match Outcomes(t, step) {
      case Err(_) =>
      case Ok(q) =>
        match step {
          case DoBeat(n, h, now) =>
            BeatCases(t, q, n, h, now);
            if q != t {
              BeatenKeeps(t, q, n, h, now);
            }
          case DoClaim(phase, choice, claim, options, now) =>
            ClaimKeeps(t, phase, choice, claim, options, now, Claim(t, phase, choice, claim, options, now).value);
          case DoComplete(job, connected, now) =>
            CompleteKeeps(t, job, connected, now, Complete(t, job, connected, now).value);
          case _ =>
            PlaneSteps(t, step, q);
            PlaneChangeKeeps(t, q);
        }
    }
  }

  lemma {:induction false} RunKeeps(t: Registry, steps: seq<Step>)
    requires Inv(t)
    ensures Inv(Run(t, steps)) && AttemptsGrow(t.attempts, Run(t, steps).attempts)
    decreases |steps|
  {
    hide Inv, After, AttemptsGrow;
    if steps == [] {
      GrowNothing(t.attempts);
    } else {
      StepKeeps(t, steps[0]);
      RunKeeps(After(t, steps[0]), steps[1..]);
      AttemptsGrowTransitive(t.attempts, After(t, steps[0]).attempts, Run(t, steps).attempts);
    }
  }

  lemma Reachable(steps: seq<Step>)
    ensures Inv(Run(EmptyRegistry, steps))
  {
    RunKeeps(EmptyRegistry, steps);
  }
}
