/**
 * The exception taxonomy of the booking client and the scanner.
 *
 * The Python classes form a hierarchy: every client error is a `UZException`;
 * `BadRequest` and `ResponseError` are kinds of `HTTPError`, and only the
 * `HTTPError` family carries a status code, the response body, the request
 * data and the decoded JSON.  `UknkownScanID` (spelled as in the scanner) is a
 * plain `Exception`.  A `try ... except C` block catches an error `e` exactly
 * when `IsInstance(e, C)`.
 */
module Errors {
  import opened Wrappers
  import opened Json

  /** The exception classes, named as in the source. */
  datatype ErrorClass =
    | PyException
    | UZException
    | FailedObtainToken
    | HTTPError
    | BadRequest
    | ResponseError
    | ImproperlyConfigured
    | UknkownScanID

  /** The direct base class of each class; `Exception` is the root. */
  function Base(c: ErrorClass): Option<ErrorClass> {
    match c
    case PyException => None
    case UZException => Some(PyException)
    case FailedObtainToken => Some(UZException)
    case HTTPError => Some(UZException)
    case BadRequest => Some(HTTPError)
    case ResponseError => Some(HTTPError)
    case ImproperlyConfigured => Some(UZException)
    case UknkownScanID => Some(PyException)
  }

  /** Distance from the root; it decreases along `Base`. */
  function Depth(c: ErrorClass): nat {
    match c
    case PyException => 0
    case UZException => 1
    case UknkownScanID => 1
    case FailedObtainToken => 2
    case HTTPError => 2
    case ImproperlyConfigured => 2
    case BadRequest => 3
    case ResponseError => 3
  }

  /** Python's `issubclass(c, d)`: `d` is `c` or one of its ancestors. */
  predicate IsSubclass(c: ErrorClass, d: ErrorClass)
    decreases Depth(c)
  {
    c == d || (Base(c).Some? && IsSubclass(Base(c).value, d))
  }

  /** The classes whose instances carry the four `HTTPError` fields. */
  type HttpClass = c: ErrorClass | IsSubclass(c, HTTPError) witness HTTPError

  /** A raised exception together with what it carries. */
  datatype Error =
    | TokenFailure(page: string)
    | HttpFailure(cls: HttpClass, statusCode: int, body: string, data: Json, json: Json)
    | ConfigFailure(message: string)
    | UnknownScanFailure(scanId: string)
    | ForeignFailure(reason: string)  // KeyError, TypeError, a JSON decoding error: outside the taxonomy

  function ClassOf(e: Error): ErrorClass {
    match e
    case TokenFailure(_) => FailedObtainToken
    case HttpFailure(cls, _, _, _, _) => cls
    case ConfigFailure(_) => ImproperlyConfigured
    case UnknownScanFailure(_) => UknkownScanID
    case ForeignFailure(_) => PyException
  }

  /** Python's `isinstance(e, c)`. */
  predicate IsInstance(e: Error, c: ErrorClass) {
    IsSubclass(ClassOf(e), c)
  }

  /**
   * `HTTPError(status_code, body, data=None, json=None)` and, through
   * inheritance, the same constructor of `BadRequest` and `ResponseError`:
   * the four arguments are stored exactly as passed.
   */
  function NewHttpError(cls: HttpClass, statusCode: int, body: string, data: Json := JNull, json: Json := JNull): (e: Error)
    ensures IsInstance(e, HTTPError) && IsInstance(e, UZException) && ClassOf(e) == cls
    ensures e.HttpFailure? && e.statusCode == statusCode && e.body == body && e.data == data && e.json == json
  {
    HttpFailure(cls, statusCode, body, data, json)
  }

  /** The shape of the hierarchy, as the class statements declare it. */
  lemma Taxonomy()
    ensures IsSubclass(BadRequest, HTTPError) && IsSubclass(ResponseError, HTTPError)
    ensures !IsSubclass(FailedObtainToken, HTTPError) && !IsSubclass(ImproperlyConfigured, HTTPError)
    ensures !IsSubclass(BadRequest, ResponseError) && !IsSubclass(ResponseError, BadRequest)
    ensures !IsSubclass(UknkownScanID, UZException)
    ensures forall c :: IsSubclass(c, PyException)
  {
    forall c ensures IsSubclass(c, PyException) {
      RootIsAncestor(c);
    }
  }

  lemma {:induction false} RootIsAncestor(c: ErrorClass)
    ensures IsSubclass(c, PyException)
    decreases Depth(c)
  {
    if Base(c).Some? {
      RootIsAncestor(Base(c).value);
    }
  }

  /** Every error the client raises is a `UZException`; only a missing scan id and foreign errors are not. */
  lemma ClientErrorsAreUZExceptions(e: Error)
    ensures IsInstance(e, UZException) <==> !(e.UnknownScanFailure? || e.ForeignFailure?)
  {
    if e.HttpFailure? {
      HttpFamilyIsUZ(e.cls);
    }
  }

  lemma HttpFamilyIsUZ(c: ErrorClass)
    requires IsSubclass(c, HTTPError)
    ensures IsSubclass(c, UZException)
  {
  }

  /** `except ResponseError` catches a `ResponseError` and nothing else the client raises. */
  lemma CatchingResponseError(e: Error)
    ensures IsInstance(e, ResponseError) <==> e.HttpFailure? && e.cls == ResponseError
  {
  }
}
