/** The endpoint tables as the server changes them: the heartbeat's refresh and insert loops, probe
    claims and completions, each proved equal to its step. */
module EndpointRegistry {
  import opened Domain
  import opened Plane
  import opened Endpoints
  import opened Heartbeats
  import opened Evidence

  type Reply = Outcome<bool, EndpointError>

  /** The same error, or the same tables. */
  ghost predicate Agrees(spec: Outcome<Registry, EndpointError>, after: Registry, r: Reply) {
    match spec
    case Ok(t) => r.Ok? && after == t
    case Err(e) => r == Err(e)
  }

  class EndpointRegistry {
    var hosts: map<NodeId, Host>
    var snapshots: map<RevisionKey, Snapshot>
    var canaries: map<NodeId, nat>
    var candidates: map<EndpointKey, Candidate>
    var verifications: map<EndpointKey, Verification>
    var attempts: seq<Attempt>

    function View(): Registry
      reads this
    {
      Registry(hosts, snapshots, canaries, candidates, verifications, attempts)
    }

    ghost predicate Valid()
      reads this
    {
      Inv(View())
    }

    constructor ()
      ensures Valid() && View() == EmptyRegistry
    {
      hosts, snapshots, canaries := map[], map[], map[];
      candidates, verifications, attempts := map[], map[], [];
    }

    /** Abort: give back the tables as they were. */
    method Rollback(t: Registry)
      modifies this
      ensures View() == t
    {
      hosts, snapshots, canaries := t.hosts, t.snapshots, t.canaries;
      candidates, verifications, attempts := t.candidates, t.verifications, t.attempts;
    }

    /** Update a known candidate in place; false when the node has none for this endpoint. */
    method RefreshEndpointCandidate(n: NodeId, e: Reported, generation: nat, now: Time)
      returns (r: Outcome<bool, EndpointError>)
      modifies this`candidates, this`verifications, this`attempts
      ensures var spec := RefreshCandidate(old(View()), n, e, generation, now);
              Agrees(spec, View(), r) && (r.Ok? ==> (r.value <==> EndpointKey(n, e.endpoint) in old(candidates)))
    {
      var k := EndpointKey(n, e.endpoint);
      if !PortMatches(View(), n, e.report) {
        return Err(RevisionMismatch);
      }
      if k !in candidates {
        return Ok(false);
      }
      var row := candidates[k];
      if row.report != e.report {
        return Err(CandidateConflict);
      }
      if row.withdrawn && (AddressHeld(View(), n, e.endpoint, e.report) || !CanCancel(attempts, k, now)) {
        return Err(RegistryConstraint);
      }
      candidates := candidates[k := Candidate(row.report, generation, if row.withdrawn then generation
          else row.verificationGeneration, false)];
      if row.withdrawn {
        attempts := CancelClaims(attempts, k, now);
        if k in verifications && verifications[k].status == Withdrawn {
          verifications := verifications[k := Verification(Unverified, None, None)];
        }
      }
      return Ok(true);
    }

    /** Refresh what is known, withdraw what is missing, insert what is new. */
    method RecordEndpointCandidates(n: NodeId, es: seq<Reported>, generation: nat, now: Time) returns (r: Reply)
      requires InStep(View()) && DistinctIds(es)
      modifies this`candidates, this`verifications, this`attempts
      ensures Agrees(RecordCandidates(old(View()), n, es, generation, now), View(), r)
    {
      hide RefreshAll, InsertAll, WithdrawMissing, InStep, Unknown;
      var added :- RefreshReportedCandidates(n, es, generation, now);
      WithdrawMissingCandidates(n, generation);
      r := InsertNewCandidates(n, added, generation);
    }

    /** Refresh the known candidates in turn and collect the others. */
    method RefreshReportedCandidates(n: NodeId, es: seq<Reported>, generation: nat, now: Time)
      returns (r: Outcome<seq<Reported>, EndpointError>)
      requires InStep(View()) && DistinctIds(es)
      modifies this`candidates, this`verifications, this`attempts
      ensures match RefreshAll(old(View()), n, es, generation, now)
              case Ok(t) => r == Ok(Unknown(old(View()), n, es)) && View() == t
              case Err(e) => r == Err(e)
    {
      hide RefreshCandidate, InStep;
      var added: seq<Reported> := [];
      ghost var t := View();
      assert es[0..] == es && [] + Unknown(t, n, es) == Unknown(t, n, es);
      for i := 0 to |es|
        invariant InStep(View()) && candidates.Keys == t.candidates.Keys
        invariant RefreshAll(t, n, es, generation, now) == RefreshAll(View(), n, es[i..], generation, now)
        invariant Unknown(t, n, es) == added + Unknown(t, n, es[i..])
      {
        assert es[i..][1..] == es[i + 1..];
        ghost var before := View();
        var known :- RefreshEndpointCandidate(n, es[i], generation, now);
        KeysKept(before, View(), n, es[i], generation, now);
        if !known {
          added := added + [es[i]];
        }
      }
      assert added == Unknown(t, n, es);
      return Ok(added);
    }

    method WithdrawMissingCandidates(n: NodeId, generation: nat)
      modifies this`candidates, this`verifications
      ensures View() == WithdrawMissing(old(View()), n, generation)
    {
      candidates := map k | k in candidates ::
        if k.node == n && !candidates[k].withdrawn && candidates[k].lastGeneration < generation
        then candidates[k].(withdrawn := true) else candidates[k];
      verifications := map k | k in verifications ::
        if k.node == n && k in candidates && candidates[k].withdrawn then verifications[k].(status := Withdrawn)
        else verifications[k];
    }

    method InsertNewCandidates(n: NodeId, added: seq<Reported>, generation: nat) returns (r: Outcome<bool,
                               EndpointError>)
      modifies this`candidates, this`verifications
      ensures Agrees(InsertAll(old(View()), n, added, generation), View(), r)
    {
      assert added[0..] == added;
      for i := 0 to |added|
        invariant InsertAll(old(View()), n, added, generation) == InsertAll(View(), n, added[i..], generation)
      {
        assert added[i..][1..] == added[i + 1..];
        var k := EndpointKey(n, added[i].endpoint);
        if k in candidates || k in verifications || AddressHeld(View(), n, added[i].endpoint, added[i].report)
           || RevisionKey(n, added[i].report.revision) !in snapshots || !Lasting(added[i].report)
        {
          return Err(RegistryConstraint);
        }
        candidates := candidates[k := Candidate(added[i].report, generation, generation, false)];
        verifications := verifications[k := Verification(Unverified, None, None)];
      }
      return Ok(true);
    }

    method RecordHeartbeat(n: NodeId, h: Heartbeat, now: Time) returns (r: Reply)
      requires Valid()
      modifies this
      ensures Valid()
      ensures Agrees(Beat(old(View()), n, h, now), View(), r) && (r.Err? ==> View() == old(View()))
    {
      InvInStep(View());
      hide Inv, Beat, InStep, AttemptsGrow;
      var before := View();
      StepKeeps(before, DoBeat(n, h, now));
      r := HeartbeatInTransaction(n, h, now);
      if r.Err? {
        Rollback(before);
      }
    }

    method HeartbeatInTransaction(n: NodeId, h: Heartbeat, now: Time) returns (r: Reply)
      requires InStep(View())
      modifies this
      ensures Agrees(Beat(old(View()), n, h, now), View(), r)
    {
      hide RecordCandidates, InStep, ValidHeartbeat, HeartbeatProgress;
      ghost var before := View();
      if !ValidHeartbeat(h) {
        return Err(InvalidHeartbeat);
      }
      if n !in hosts || !Admitted(hosts[n].node.status) {
        return Err(HostRevoked);
      }
      if h.generation < hosts[n].generation {
        return Err(StaleHeartbeat);
      }
      if h.generation == hosts[n].generation {
        if hosts[n].last == Some(h) {
          return Ok(true);
        }
        return Err(HeartbeatConflict);
      }
      var progress := HeartbeatProgress(View(), n, h);
      if progress.Some? {
        return Err(ProgressMismatch(progress.value));
      }
      var node := hosts[n].node.(reported := h.progress.desired, agentVersion := h.agentVersion);
      hosts := hosts[n := Host(node, h.telemetryCursor, h.generation, Some(h), Some(now))];
      SeenInStep(before, n, h, now);
      r := RecordEndpointCandidates(n, h.endpoints, h.generation, now);
    }

    /** Sweep expired leases, then lease the chosen endpoint if it is due. */
    method ClaimProbe(phase: Phase, choice: Option<EndpointKey>, claim: nat, options: Schedule, now: Time)
      returns (r: Outcome<Option<Job>, EndpointError>)
      requires Valid()
      modifies this
      ensures Valid()
      ensures var spec := Claim(old(View()), phase, choice, claim, options, now);
              match spec
              case Ok(out) => r.Ok? && out == Granted(View(), r.value)
              case Err(e) => r == Err(e) && View() == old(View())
    {
      hide Inv, Due, ExpireClaims, AttemptsGrow;
      var before := View();
      StepKeeps(before, DoClaim(phase, choice, claim, options, now));
      attempts := ExpireClaims(attempts, now);
      if choice.None? || !Due(View(), choice.value, phase, options, now) {
        return Ok(None);
      }
      if options.lease <= 0 {
        Rollback(before);
        return Err(RegistryConstraint);
      }
      var k := choice.value;
      DueKnown(View(), k, phase, options, now);
      var c := candidates[k];
      var ticket := Ticket(k.node, k.endpoint, phase, c.lastGeneration, c.report.address, c.report.port,
                           c.report.revision, now + options.lease, claim);
      var canary := if k.node in canaries then canaries[k.node] else 0;
      var job := Job(|attempts|, ticket, canary);
      attempts := attempts + [Attempt(ticket, Claimed, now, now)];
      return Ok(Some(job));
    }

    method CompleteProbe(job: Job, connected: bool, now: Time) returns (r: Outcome<Completion, EndpointError>)
      requires Valid()
      modifies this
      ensures Valid()
      ensures var spec := Complete(old(View()), job, connected, now);
              match spec
              case Ok(out) => r.Ok? && out == Completed(View(), r.value)
              case Err(e) => r == Err(e) && View() == old(View())
    {
      hide Inv, Current, CanaryCurrent, AttemptsGrow;
      var before := View();
      StepKeeps(before, DoComplete(job, connected, now));
      if job.attempt >= |attempts| {
        return Err(ClaimUnknown);
      }
      var a := attempts[job.attempt];
      if a.ticket != job.ticket {
        return Err(ClaimConflict);
      }
      if a.status != Claimed {
        return Ok(AlreadyRecorded);
      }
      if now < a.startedAt {
        return Err(RegistryConstraint);
      }
      if now >= a.ticket.claimExpires {
        attempts := attempts[job.attempt := a.(status := Expired, completedAt := now)];
        return Ok(ClaimExpired);
      }
      if !Current(View(), job.ticket, now) || (job.ticket.phase == Protocol && !CanaryCurrent(View(), job)) {
        attempts := attempts[job.attempt := a.(status := Cancelled, completedAt := now)];
        return Ok(CandidateChanged);
      }
      CurrentKnown(View(), job.ticket, now);
      attempts := attempts[job.attempt := a.(status := if connected then Succeeded
          else FailedProbe, completedAt := now)];
      if job.ticket.phase == Protocol {
        var k := EndpointKey(job.ticket.node, job.ticket.endpoint);
        var verdict := Verdict(verifications[k], connected, now);
        if verdict.Err? {
          Rollback(before);
          return Err(verdict.error);
        }
        verifications := verifications[k := verdict.value];
      }
      return Ok(Recorded);
    }
  }

  lemma InvInStep(t: Registry)
    requires Inv(t)
    ensures InStep(t)
  {
  }

  lemma SeenInStep(t: Registry, n: NodeId, h: Heartbeat, now: Time)
    requires InStep(t) && n in t.hosts && ValidHeartbeat(h)
    ensures InStep(Seen(t, n, h, now)) && DistinctIds(h.endpoints)
  {
  }

  lemma KeysKept(t: Registry, q: Registry, n: NodeId, e: Reported, generation: nat, now: Time)
    requires InStep(t) && RefreshCandidate(t, n, e, generation, now) == Ok(q)
    ensures InStep(q) && q.candidates.Keys == t.candidates.Keys
  {
    RefreshOneEffect(t, q, n, e, generation, now);
  }

  lemma DueKnown(t: Registry, k: EndpointKey, phase: Phase, options: Schedule, now: Time)
    requires Due(t, k, phase, options, now)
    ensures k in t.candidates
  {
  }
}
