/** Identifiers, limits and outcome types shared by every table model.

    Random identifiers (UUIDs) are natural numbers; their only structure is equality and order.
    A fresh identifier is always an input of the step that stores it, and a collision with a stored
    row is the UNIQUE or PRIMARY KEY violation that aborts the transaction. */
module Domain {

  type NodeId = nat
  type UserId = nat
  type DeviceId = nat
  type SessionId = nat
  type CredentialId = nat
  type EndpointId = nat
  type Time = int

  /** Largest value of a SQLite INTEGER column. */
  const MAX_I64: nat := 0x7FFF_FFFF_FFFF_FFFF

  datatype Option<+T> = None | Some(value: T)

  /** Result of one transaction: a committed value or the error that aborted it. */
  datatype Outcome<+T, +E> = Ok(value: T) | Err(error: E) {
    predicate IsFailure() {
      Err?
    }

    function PropagateFailure<U>(): Outcome<U, E>
      requires Err?
    {
      Err(error)
    }

    function Extract(): T
      requires Ok?
    {
      value
    }
  }

  function Max(a: nat, b: nat): nat {
    if a < b then b else a
  }

  lemma {:induction false} GreatestExists(s: set<nat>)
    requires s != {}
    ensures exists x :: x in s && forall y :: y in s ==> y <= x
  {
    var x :| x in s;
    var rest := s - {x};
    assert forall y :: y in s ==> y == x || y in rest;
    if rest == {} {
      assert x in s && forall y :: y in s ==> y <= x;
    } else {
      GreatestExists(rest);
      var m :| m in rest && forall y :: y in rest ==> y <= m;
      var top := Max(x, m);
      assert top in s && forall y :: y in s ==> y <= top;
    }
  }

  /** Greatest element of a finite set, or 0 for the empty set: SQL's COALESCE(MAX(x), 0). */
  ghost function MaxOf(s: set<nat>): (m: nat)
    ensures forall x :: x in s ==> x <= m
    ensures m == 0 || m in s
  {
    if s == {} then 0 else
      GreatestExists(s);
      var x :| x in s && forall y :: y in s ==> y <= x;
      x
  }

  /** A non-empty set of numbers has a least element, the first one an ordered set yields. */
  lemma {:induction false} LeastBelow(s: set<nat>, x: nat)
    requires x in s
    ensures exists m :: m in s && forall y :: y in s ==> m <= y
    decreases x
  {
    if y :| y in s && y < x {
      LeastBelow(s, y);
    } else {
      assert x in s && forall y :: y in s ==> x <= y;
    }
  }

  ghost function Least(s: set<nat>): (m: nat)
    requires s != {}
    ensures m in s && forall y :: y in s ==> m <= y
  {
    var x :| x in s;
    LeastBelow(s, x);
    var m :| m in s && forall y :: y in s ==> m <= y;
    m
  }
}
