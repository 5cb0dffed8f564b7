/** Exception classes, and the two tests the executor applies to a raised error. */
module Errors {
  type Class = string

  const BASE_EXCEPTION: Class := "BaseException"
  const EXCEPTION: Class := "Exception"
  const LOCK_ERROR: Class := "LockError"
  const DATABASE_ERROR: Class := "DatabaseError"

  /** Each class with all its ancestors, itself included. */
  type Hierarchy = map<Class, set<Class>>

  /** `issubclass(a, b)`; also `isinstance(e, b)` for an error `e` whose type is `a`. */
  predicate IsSubclass(h: Hierarchy, a: Class, b: Class) {
    a in h && b in h[a]
  }

  ghost predicate WellFormed(h: Hierarchy) {
    && (forall a | a in h :: a in h[a] && h[a] <= h.Keys)
    && (forall a, b | a in h && b in h[a] && b in h :: h[b] <= h[a])
  }

  predicate Comparable(h: Hierarchy, a: Class, b: Class) {
    IsSubclass(h, a, b) || IsSubclass(h, b, a)
  }

  /** `_validate_singleton`: a singleton may not list a class related to LockError. */
  predicate AcceptsRetryOn(h: Hierarchy, singleton: bool, retryOn: seq<Class>) {
    singleton ==> forall t | t in retryOn :: !Comparable(h, t, LOCK_ERROR)
  }

  /** `isinstance(error, retry_on)` for a tuple of classes. */
  predicate Matches(h: Hierarchy, e: Class, types: seq<Class>) {
    exists t | t in types :: IsSubclass(h, e, t)
  }

  /** Every ancestor of a kind of LockError is related to LockError itself. */
  ghost predicate LockErrorsLinear(h: Hierarchy) {
    forall e, t | e in h && LOCK_ERROR in h[e] && t in h[e] :: Comparable(h, t, LOCK_ERROR)
  }

  ghost predicate NeverBoth(h: Hierarchy) {
    forall retryOn: seq<Class>, e: Class | AcceptsRetryOn(h, true, retryOn) ::
      !(IsSubclass(h, e, LOCK_ERROR) && Matches(h, e, retryOn))
  }

  /** No error meets both tests, whatever accepted tuple is used, exactly when the
      descendants of LockError bring in no unrelated ancestor. */
  lemma LockAndRetryTestsExclusive(h: Hierarchy)
    ensures NeverBoth(h) <==> LockErrorsLinear(h)
  {
    if NeverBoth(h) {
      forall e, t | e in h && LOCK_ERROR in h[e] && t in h[e]
        ensures Comparable(h, t, LOCK_ERROR)
      {
        if !Comparable(h, t, LOCK_ERROR) {
          var retryOn := [t];
          assert AcceptsRetryOn(h, true, retryOn);
          assert t in retryOn && IsSubclass(h, e, t);
          assert Matches(h, e, retryOn);
          assert false;
        }
      }
    }
    if LockErrorsLinear(h) {
      forall retryOn: seq<Class>, e: Class | AcceptsRetryOn(h, true, retryOn)
        ensures !(IsSubclass(h, e, LOCK_ERROR) && Matches(h, e, retryOn))
      {
      }
    }
  }

  /** Every kind of LockError but LockError itself is derived from one class only, itself a
      kind of LockError. LockError may have any number of parents. */
  ghost predicate KindsHaveOneParent(h: Hierarchy) {
    forall e | e in h && e != LOCK_ERROR && LOCK_ERROR in h[e] ::
      exists p | p in h :: LOCK_ERROR in h[p] && e !in h[p] && h[e] == {e} + h[p]
  }

  lemma {:induction false} KindIsLinear(h: Hierarchy, e: Class, t: Class)
    requires KindsHaveOneParent(h) && LOCK_ERROR in h
    requires e in h && LOCK_ERROR in h[e] && t in h[e]
    ensures e == LOCK_ERROR || t in h[LOCK_ERROR] || (t in h && LOCK_ERROR in h[t])
    decreases |h[e]|
  {
    if e != LOCK_ERROR && t != e {
      var p :| p in h && LOCK_ERROR in h[p] && e !in h[p] && h[e] == {e} + h[p];
      KindIsLinear(h, p, t);
    }
  }

  /** So the tests exclude each other for LockError as Redis declares it, with two unrelated
      parents, and kinds derived from it one by one. */
  lemma KindsWithOneParentAreLinear(h: Hierarchy)
    requires KindsHaveOneParent(h) && LOCK_ERROR in h
    ensures LockErrorsLinear(h) && NeverBoth(h)
  {
    forall e, t | e in h && LOCK_ERROR in h[e] && t in h[e]
      ensures Comparable(h, t, LOCK_ERROR)
    {
      KindIsLinear(h, e, t);
    }
    LockAndRetryTestsExclusive(h);
  }

  /** Redis declares such a LockError, under its own RedisError and under ValueError, with one
      kind derived from it. */
  lemma RedisIsLikeThat() returns (h: Hierarchy)
    ensures WellFormed(h) && KindsHaveOneParent(h)
    ensures IsSubclass(h, LOCK_ERROR, "RedisError") && IsSubclass(h, LOCK_ERROR, "ValueError")
    ensures !Comparable(h, "RedisError", "ValueError") && IsSubclass(h, "LockNotOwnedError", LOCK_ERROR)
  {
    var above := {EXCEPTION, "RedisError", "ValueError", LOCK_ERROR};
    h := map[
      EXCEPTION := {EXCEPTION},
      "RedisError" := {"RedisError", EXCEPTION},
      "ValueError" := {"ValueError", EXCEPTION},
      LOCK_ERROR := above,
      "LockNotOwnedError" := {"LockNotOwnedError"} + above
    ];
    assert LOCK_ERROR in h && "LockNotOwnedError" !in h[LOCK_ERROR];
  }

  /** One class under both LockError and an unrelated type passes both tests. */
  lemma TwoParentsMeetBothTests() returns (h: Hierarchy, retryOn: seq<Class>, e: Class)
    ensures WellFormed(h) && AcceptsRetryOn(h, true, retryOn)
    ensures IsSubclass(h, e, LOCK_ERROR) && Matches(h, e, retryOn)
  {
    e := "RedisLockTimeout";
    var other := "TimeoutError";
    retryOn := [other];
    h := map[
      EXCEPTION := {EXCEPTION},
      LOCK_ERROR := {LOCK_ERROR, EXCEPTION},
      other := {other, EXCEPTION},
      e := {e, LOCK_ERROR, other, EXCEPTION}
    ];
    assert IsSubclass(h, e, retryOn[0]);
    assert !Comparable(h, other, LOCK_ERROR);
  }
}
