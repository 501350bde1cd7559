/** Signed node requests: the clock window, the nonce table and its clean-up.  With a clock that does not
    go back, no signed request is accepted twice. */
module Nonces {
  import opened Domain
  import opened Plane

  const CLOCK_SKEW: nat := 300

  datatype KeyRef = KeyRef(node: NodeId, credential: nat)
  datatype KeyRow = KeyRow(notBefore: Time, expires: Time, revoked: bool)
  datatype NonceKey = NonceKey(key: KeyRef, nonce: nat)

  /** Everything the signature covers; two requests are the same exactly when these fields are. */
  datatype Request = Request(key: KeyRef, nonce: nat, timestamp: Time, body: nat)

  datatype Gate = Gate(nodes: map<NodeId, NodeStatus>, keys: map<KeyRef, KeyRow>, nonces: map<NonceKey, Time>)

  datatype GateError = ClockSkew | AuthenticationFailed | RevokedNode | InvalidSignature | NonceReplayed

  const EmptyGate: Gate := Gate(map[], map[], map[])

  /** Rows whose expiry has passed are deleted first. */
  function Sweep(nonces: map<NonceKey, Time>, now: Time): map<NonceKey, Time> {
    map k | k in nonces && nonces[k] >= now :: nonces[k]
  }

  predicate InWindow(timestamp: Time, now: Time) {
    timestamp - CLOCK_SKEW <= now <= timestamp + CLOCK_SKEW
  }

  /** Check the window, the node's key and the signature, then claim the nonce; errors undo the sweep. */
  function Authenticate(g: Gate, r: Request, signed: bool, now: Time): Outcome<Gate, GateError> {
    if !InWindow(r.timestamp, now) then Err(ClockSkew)
    else if r.key !in g.keys || r.key.node !in g.nodes then Err(AuthenticationFailed)
    else if g.nodes[r.key.node] == NodeDisabled || g.nodes[r.key.node] == NodeRevoked
        || g.keys[r.key].revoked then Err(RevokedNode)
    else if g.keys[r.key].notBefore > now || g.keys[r.key].expires <= now then Err(AuthenticationFailed)
    else if !signed then Err(InvalidSignature)
    else if NonceKey(r.key, r.nonce) in Sweep(g.nonces, now) then Err(NonceReplayed)
    else Ok(g.(nonces := Sweep(g.nonces, now)[NonceKey(r.key, r.nonce) := r.timestamp + CLOCK_SKEW]))
  }

  // ----- runs -----

  datatype Step =
    | DoNode(node: NodeId, status: NodeStatus)
    | DoKey(key: KeyRef, row: KeyRow)
    | DoRequest(request: Request, signed: bool, now: Time)

  predicate Accepts(g: Gate, step: Step) {
    step.DoRequest? && Authenticate(g, step.request, step.signed, step.now).Ok?
  }

  function After(g: Gate, step: Step): Gate {
    match step
    case DoNode(n, status) => g.(nodes := g.nodes[n := status])
    case DoKey(k, row) => g.(keys := g.keys[k := row])
    case DoRequest(r, signed, now) =>
      match Authenticate(g, r, signed, now)
      case Ok(q) => q
      case Err(_) => g
  }

  /** The gate after the first i steps. */
  function RunTo(g: Gate, steps: seq<Step>, i: nat): Gate
    requires i <= |steps|
  {
    if i == 0 then g else After(RunTo(g, steps, i - 1), steps[i - 1])
  }

  /** Request times do not decrease along the run. */
  ghost predicate ClockNeverBack(steps: seq<Step>) {
    forall i, j :: 0 <= i < j < |steps| && steps[i].DoRequest? && steps[j].DoRequest? ==> steps[i].now <= steps[j].now
  }

  /** A request accepted strictly between two steps came after the given time, so its sweep took the rows
      that expired before then.  Refused requests undo their sweep. */
  ghost predicate SweptBetween(g: Gate, steps: seq<Step>, i: nat, j: nat, bound: Time)
    requires i < j <= |steps|
  {
    exists m :: i < m < j && Accepts(RunTo(g, steps, m), steps[m]) && steps[m].now > bound
  }

  function Claimed(step: Step): NonceKey
    requires step.DoRequest?
  {
    NonceKey(step.request.key, step.request.nonce)
  }

  /** Unless such a request was accepted, an inserted nonce row stays. */
  lemma {:induction false} NonceStays(g: Gate, steps: seq<Step>, i: nat, j: nat, bound: Time)
    requires i < j <= |steps| && Accepts(RunTo(g, steps, i), steps[i])
    requires bound == steps[i].request.timestamp + CLOCK_SKEW && !SweptBetween(g, steps, i, j, bound)
    ensures var k := Claimed(steps[i]); k in RunTo(g, steps, j).nonces && RunTo(g, steps, j).nonces[k] == bound
    decreases j
  {
    if j > i + 1 {
      assert !SweptBetween(g, steps, i, j - 1, bound);
      NonceStays(g, steps, i, j - 1, bound);
      var before := RunTo(g, steps, j - 1);
      assert Accepts(before, steps[j - 1]) ==> steps[j - 1].now <= bound;
      RowSurvives(before, steps[j - 1], Claimed(steps[i]), bound);
    }
  }

  lemma RowSurvives(g: Gate, step: Step, k: NonceKey, bound: Time)
    requires k in g.nonces && g.nonces[k] == bound && (Accepts(g, step) ==> step.now <= bound)
    ensures k in After(g, step).nonces && After(g, step).nonces[k] == bound
  {
  }

  /** No request between the two steps claimed the nonce again. */
  ghost predicate NotClaimedBetween(g: Gate, steps: seq<Step>, i: nat, j: nat, k: NonceKey)
    requires i < j <= |steps|
  {
    forall m :: i < m < j && Accepts(RunTo(g, steps, m), steps[m]) ==> Claimed(steps[m]) != k
  }

  /** Once swept, the row is gone until the nonce is claimed again. */
  lemma {:induction false} NonceGone(g: Gate, steps: seq<Step>, i: nat, j: nat, bound: Time)
    requires i < j <= |steps| && Accepts(RunTo(g, steps, i), steps[i])
    requires bound == steps[i].request.timestamp + CLOCK_SKEW && SweptBetween(g, steps, i, j, bound)
    requires NotClaimedBetween(g, steps, i, j, Claimed(steps[i]))
    ensures Claimed(steps[i]) !in RunTo(g, steps, j).nonces
    decreases j
  {
    hide After, Authenticate;
    var before, k := RunTo(g, steps, j - 1), Claimed(steps[i]);
    assert RunTo(g, steps, j) == After(before, steps[j - 1]);
    hide RunTo;
    if SweptBetween(g, steps, i, j - 1, bound) {
      NonceGone(g, steps, i, j - 1, bound);
      RowStaysGone(before, steps[j - 1], k);
    } else {
      NonceStays(g, steps, i, j - 1, bound);
      RowIsSwept(before, steps[j - 1], k);
    }
  }

  lemma RowStaysGone(g: Gate, step: Step, k: NonceKey)
    requires k !in g.nonces && (Accepts(g, step) ==> Claimed(step) != k)
    ensures k !in After(g, step).nonces
  {
  }

  lemma RowIsSwept(g: Gate, step: Step, k: NonceKey)
    requires k in g.nonces && Accepts(g, step) && g.nonces[k] < step.now && Claimed(step) != k
    ensures k !in After(g, step).nonces
  {
  }

  /** Every gate but the nonce table lets the request pass. */
  predicate PassesOtherGates(g: Gate, r: Request, signed: bool, now: Time) {
    && InWindow(r.timestamp, now) && r.key in g.keys && r.key.node in g.nodes
    && g.nodes[r.key.node] != NodeDisabled && g.nodes[r.key.node] != NodeRevoked && !g.keys[r.key].revoked
    && g.keys[r.key].notBefore <= now < g.keys[r.key].expires && signed
  }

  /** When an accepted request comes again, before its nonce was claimed anew, it is accepted again exactly
      when it passes the other gates and a request accepted in between came after its window closed. */
  lemma AcceptedAgainExactly(g: Gate, steps: seq<Step>, i: nat, j: nat)
    requires i < j < |steps| && Accepts(RunTo(g, steps, i), steps[i])
    requires steps[j].DoRequest? && steps[j].request == steps[i].request
    requires NotClaimedBetween(g, steps, i, j, Claimed(steps[i]))
    ensures Accepts(RunTo(g, steps, j), steps[j]) <==>
            && PassesOtherGates(RunTo(g, steps, j), steps[j].request, steps[j].signed, steps[j].now)
            && SweptBetween(g, steps, i, j, steps[i].request.timestamp + CLOCK_SKEW)
  {
    hide RunTo, SweptBetween, NotClaimedBetween;
    var bound := steps[i].request.timestamp + CLOCK_SKEW;
    if SweptBetween(g, steps, i, j, bound) {
      NonceGone(g, steps, i, j, bound);
    } else {
      NonceStays(g, steps, i, j, bound);
    }
  }

  /** So a signed request is accepted twice only if some request accepted in between came after its window. */
  lemma NeverAcceptedTwice(g: Gate, steps: seq<Step>, i: nat, j: nat)
    requires i < j < |steps| && steps[i].DoRequest? && steps[j].DoRequest? && steps[i].request == steps[j].request
    requires !SweptBetween(g, steps, i, j, steps[i].request.timestamp + CLOCK_SKEW)
    ensures !(Accepts(RunTo(g, steps, i), steps[i]) && Accepts(RunTo(g, steps, j), steps[j]))
  {
    hide RunTo, SweptBetween;
    if Accepts(RunTo(g, steps, i), steps[i]) {
      NonceStays(g, steps, i, j, steps[i].request.timestamp + CLOCK_SKEW);
    }
  }

  /** A clock that does not go back is enough. */
  lemma SteadyClockIsEnough(g: Gate, steps: seq<Step>, i: nat, j: nat)
    requires i < j < |steps| && steps[i].DoRequest? && steps[j].DoRequest? && steps[i].request == steps[j].request
    requires ClockNeverBack(steps)
    ensures !(Accepts(RunTo(g, steps, i), steps[i]) && Accepts(RunTo(g, steps, j), steps[j]))
  {
    hide RunTo;
    if Accepts(RunTo(g, steps, j), steps[j]) {
      assert steps[j].now <= steps[j].request.timestamp + CLOCK_SKEW;
      assert !SweptBetween(g, steps, i, j, steps[i].request.timestamp + CLOCK_SKEW);
      NeverAcceptedTwice(g, steps, i, j);
    }
  }

  /** Within the clock window of an accepted request its nonce is refused: a second acceptance of the same
      nonce of the same key comes only after the first request could no longer be accepted itself. */
  lemma NonceReuseNeedsClosedWindow(g: Gate, steps: seq<Step>, i: nat, j: nat)
    requires i < j < |steps| && Accepts(RunTo(g, steps, i), steps[i]) && Accepts(RunTo(g, steps, j), steps[j])
    requires Claimed(steps[i]) == Claimed(steps[j])
    ensures steps[j].now > steps[i].request.timestamp + CLOCK_SKEW
            || SweptBetween(g, steps, i, j, steps[i].request.timestamp + CLOCK_SKEW)
  {
    hide RunTo, SweptBetween;
    var bound := steps[i].request.timestamp + CLOCK_SKEW;
    if !SweptBetween(g, steps, i, j, bound) {
      NonceStays(g, steps, i, j, bound);
    }
  }

  /** The clock matters: once a later request has swept the row, going back readmits the first request. */
  lemma ClockGoingBackReadmits(g: Gate, r: Request, other: Request, now: Time, later: Time, a: Gate, b: Gate)
    requires Authenticate(g, r, true, now) == Ok(a) && Authenticate(a, other, true, later) == Ok(b)
    requires later > r.timestamp + CLOCK_SKEW && NonceKey(other.key, other.nonce) != NonceKey(r.key, r.nonce)
    ensures Authenticate(b, r, true, now).Ok?
  {
  }

  // ----- the gate as the server holds it -----

  class NonceGate {
    var nodes: map<NodeId, NodeStatus>
    var keys: map<KeyRef, KeyRow>
    var nonces: map<NonceKey, Time>

    function View(): Gate
      reads this
    {
      Gate(nodes, keys, nonces)
    }

    constructor ()
      ensures View() == EmptyGate
    {
      nodes, keys, nonces := map[], map[], map[];
    }

    method AuthenticateNodeRequest(r: Request, signed: bool, now: Time) returns (reply: Outcome<NodeId, GateError>)
      modifies this`nonces
      ensures var spec := Authenticate(old(View()), r, signed, now);
              && (reply.Ok? <==> spec.Ok?) && (reply.Err? ==> reply.error == spec.error)
                   && (reply.Ok? ==> reply.value == r.key.node)
              && View() == (if spec.Ok? then spec.value else old(View()))
    {
      if !InWindow(r.timestamp, now) {
        return Err(ClockSkew);
      }
      var before := nonces;
      nonces := Sweep(nonces, now);
      if r.key !in keys || r.key.node !in nodes {
        nonces := before;
        return Err(AuthenticationFailed);
      }
      if nodes[r.key.node] == NodeDisabled || nodes[r.key.node] == NodeRevoked || keys[r.key].revoked {
        nonces := before;
        return Err(RevokedNode);
      }
      if keys[r.key].notBefore > now || keys[r.key].expires <= now {
        nonces := before;
        return Err(AuthenticationFailed);
      }
      if !signed {
        nonces := before;
        return Err(InvalidSignature);
      }
      var k := NonceKey(r.key, r.nonce);
      if k in nonces {
        nonces := before;
        return Err(NonceReplayed);
      }
      nonces := nonces[k := r.timestamp + CLOCK_SKEW];
      return Ok(r.key.node);
    }
  }
}
