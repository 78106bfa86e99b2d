/** The client's error taxonomy: a small class hierarchy rooted at
    `NjsPCError`, and the kinds of failure a client call can raise. */
module Exceptions {
  import opened Values

  /** The library's exception classes. */
  datatype ErrorClass =
    | NjsPCError
    | ConnectionError
    | ConnectionTimeoutError
    | NotConnectedError

  /** The direct base class within the library; `NjsPCError` derives from
      Python's built-in `Exception`, which lies outside the library. */
  function Base(c: ErrorClass): Option<ErrorClass> {
    match c
    case NjsPCError => None
    case ConnectionError => Some(NjsPCError)
    case ConnectionTimeoutError => Some(ConnectionError)
    case NotConnectedError => Some(NjsPCError)
  }

  /** Number of inheritance steps from `c` up to the root; the measure on
      which the subclass relation recurses. */
  function Depth(c: ErrorClass): (d: nat)
    ensures Base(c).None? <==> d == 0
  {
    match c
    case NjsPCError => 0
    case ConnectionError => 1
    case ConnectionTimeoutError => 2
    case NotConnectedError => 1
  }

  /** `IsA(c, d)`: an instance of `c` is an instance of `d`
      (Python's `issubclass(c, d)` restricted to the library). */
  predicate IsA(c: ErrorClass, d: ErrorClass): (r: bool)
    ensures r ==> Depth(d) <= Depth(c)
    ensures r && c != d ==> Depth(d) < Depth(c)
    decreases Depth(c)
  {
    c == d || (Base(c).Some? && IsA(Base(c).value, d))
  }

  lemma TimeoutIsConnectionError()
    ensures IsA(ConnectionTimeoutError, ConnectionError)
    ensures !IsA(ConnectionError, ConnectionTimeoutError)
  {
  }

  lemma ConnectionErrorIsNjsPCError()
    ensures IsA(ConnectionError, NjsPCError)
    ensures !IsA(NjsPCError, ConnectionError)
  {
  }

  lemma NotConnectedIsNotAConnectionError()
    ensures IsA(NotConnectedError, NjsPCError)
    ensures !IsA(NotConnectedError, ConnectionError)
    ensures !IsA(NotConnectedError, ConnectionTimeoutError)
  {
  }

  /** Every library error is an `NjsPCError`. */
  lemma {:induction false} AllAreNjsPCErrors(c: ErrorClass)
    ensures IsA(c, NjsPCError)
    decreases Depth(c)
  {
    if Base(c).Some? {
      AllAreNjsPCErrors(Base(c).value);
    }
  }

  /** The subclass relation is transitive. */
  lemma {:induction false} IsATransitive(a: ErrorClass, b: ErrorClass, c: ErrorClass)
    requires IsA(a, b) && IsA(b, c)
    ensures IsA(a, c)
    decreases Depth(a)
  {
    if a != b {
      IsATransitive(Base(a).value, b, c);
    }
  }

  /** The subclass relation is antisymmetric: the hierarchy has no cycles. */
  lemma IsAAntisymmetric(a: ErrorClass, b: ErrorClass)
    requires IsA(a, b) && IsA(b, a)
    ensures a == b
  {
  }

  /** What a client call can raise: one of the library's classes, Python's
      `ValueError` for a malformed payload, or an exception of a foreign
      library that the client logs and re-raises unchanged. */
  datatype Raised =
    | Library(cls: ErrorClass)
    | ValueError
    | Propagated

  /** `except c:` catches `r`. */
  predicate Catches(c: ErrorClass, r: Raised) {
    r.Library? && IsA(r.cls, c)
  }

  /** A handler for `NjsPCError` catches every library error, and nothing the
      library re-raises or a `ValueError`. */
  lemma NjsPCErrorCatchesLibraryErrors(r: Raised)
    ensures Catches(NjsPCError, r) <==> r.Library?
  {
    if r.Library? {
      AllAreNjsPCErrors(r.cls);
    }
  }
}
