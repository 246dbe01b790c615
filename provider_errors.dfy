/**
 * The provider's exceptions and the client's error classifier
 * (`is_not_found`, `is_over_limit`, ... of the compute client plugin).
 */
module ProviderErrors {
  import opened Wrappers

  /** The exception class raised by the provider library. All but `NotClientError` are client exceptions. */
  datatype ErrorClass =
    | NotFound
    | OverLimit
    | BadRequest
    | Conflict
    | OtherClientError
    | NotClientError

  /** An attribute of an exception object: missing, or present and holding `None` or an integer. */
  datatype Attr = Absent | Present(value: Option<int>)

  /** A raised provider error: its class, its `http_status` and `code` attributes and its message. */
  datatype ProviderError = ProviderError(cls: ErrorClass, httpStatus: Attr, code: Attr, message: string)

  /** Domain failures raised by the client towards the orchestration engine. */
  datatype Error =
    | Reraised(providerError: ProviderError)
    | EntityNotFound(entity: string, name: string)
    | FlavorMissing(flavorId: string)
    | StackValidationFailed(message: string)
    | KeyNotFound(key: string)

  predicate IsClientException(e: ProviderError) { e.cls != NotClientError }

  /** `isinstance(e, NotFound)`: the library's not-found class is a client exception carrying 404. */
  predicate IsNotFound(e: ProviderError)
    ensures IsNotFound(e) ==> IsClientException(e) && ClassStatus(e.cls) == Some(404)
  {
    e.cls == NotFound
  }

  /** `isinstance(e, OverLimit)`: the library's over-limit class is a client exception carrying 413. */
  predicate IsOverLimit(e: ProviderError)
    ensures IsOverLimit(e) ==> IsClientException(e) && ClassStatus(e.cls) == Some(413)
  {
    e.cls == OverLimit
  }

  /** `isinstance(e, BadRequest)`: the library's bad-request class is a client exception carrying 400. */
  predicate IsBadRequest(e: ProviderError)
    ensures IsBadRequest(e) ==> IsClientException(e) && ClassStatus(e.cls) == Some(400)
  {
    e.cls == BadRequest
  }

  /** `isinstance(e, Conflict)`: the library's conflict class is a client exception carrying 409. */
  predicate IsConflict(e: ProviderError)
    ensures IsConflict(e) ==> IsClientException(e) && ClassStatus(e.cls) == Some(409)
  {
    e.cls == Conflict
  }

  /** `getattr(e, name, default)` */
  function GetAttr(a: Attr, default: Option<int>): Option<int> {
    match a
    case Absent => default
    case Present(v) => v
  }

  /** Python truthiness of an optional integer: `None` and `0` are false. */
  predicate IsTruthy(v: Option<int>) { v.Some? && v.value != 0 }

  /**
   * `getattr(e, 'http_status', None) or getattr(e, 'code', None)`: the status unless it is
   * missing, `None` or zero, in which case the code.
   */
  function StatusOrCode(e: ProviderError): (r: Option<int>)
    ensures IsTruthy(GetAttr(e.httpStatus, None)) ==> e.httpStatus.Present? && r == e.httpStatus.value
    ensures !IsTruthy(GetAttr(e.httpStatus, None)) ==> (r.Some? <==> e.code.Present? && e.code.value.Some?)
    ensures !IsTruthy(GetAttr(e.httpStatus, None)) && r.Some? ==> r == e.code.value
  {
    var status := GetAttr(e.httpStatus, None);
    if IsTruthy(status) then status else GetAttr(e.code, None)
  }

  /**
   * A client exception whose status is 422, where a missing, `None` or zero status gives way to
   * the code.
   */
  predicate IsUnprocessableEntity(e: ProviderError)
    ensures IsUnprocessableEntity(e) <==>
      && IsClientException(e)
      && (if IsTruthy(GetAttr(e.httpStatus, None)) then e.httpStatus.value == Some(422)
          else GetAttr(e.code, None) == Some(422))
  {
    IsClientException(e) && StatusOrCode(e) == Some(422)
  }

  /**
   * `getattr(e, 'http_status', getattr(e, 'code', None))`: the code is consulted only when the
   * status attribute is missing altogether, not when it holds `None`.
   */
  function StatusAttr(e: ProviderError): (r: Option<int>)
    ensures e.httpStatus.Present? ==> r == e.httpStatus.value
    ensures e.httpStatus.Absent? ==> r == GetAttr(e.code, None)
  {
    GetAttr(e.httpStatus, GetAttr(e.code, None))
  }

  /**
   * The errors that fetching and refreshing a server absorb: an over-limit response, or a
   * client exception whose status is 500 or 503.
   */
  predicate IsTransient(e: ProviderError)
    ensures IsOverLimit(e) ==> IsTransient(e)
    ensures IsTransient(e) ==> IsClientException(e)
    ensures IsTransient(e) <==>
      || IsOverLimit(e)
      || (&& IsClientException(e)
          && (if e.httpStatus.Present? then e.httpStatus.value else GetAttr(e.code, None)) in {Some(500), Some(503)})
  {
    || IsOverLimit(e)
    || (IsClientException(e) && StatusAttr(e) in {Some(500), Some(503)})
  }

  /** The HTTP status the provider library fixes for each of its named exception classes. */
  function ClassStatus(c: ErrorClass): Option<int> {
    match c
    case NotFound => Some(404)
    case OverLimit => Some(413)
    case BadRequest => Some(400)
    case Conflict => Some(409)
    case OtherClientError => None
    case NotClientError => None
  }

  /** An error as the provider library builds it: a named class carries that class's status. */
  predicate FromLibrary(e: ProviderError) {
    ClassStatus(e.cls).Some? ==> e.httpStatus == Present(ClassStatus(e.cls))
  }

  /** At most one of the named classes applies to any error. */
  lemma ClassesExclusive(e: ProviderError)
    ensures IsNotFound(e) ==> !IsOverLimit(e) && !IsBadRequest(e) && !IsConflict(e)
    ensures IsOverLimit(e) ==> !IsBadRequest(e) && !IsConflict(e)
    ensures IsBadRequest(e) ==> !IsConflict(e)
  {
  }

  /**
   * For errors built by the library, a not-found error is never absorbed as transient and
   * never looks unprocessable, and an unprocessable error is neither a bad request, a conflict
   * nor over limit.
   */
  lemma LibraryErrorsClassifyOnce(e: ProviderError)
    requires FromLibrary(e)
    ensures IsNotFound(e) ==> !IsTransient(e) && !IsUnprocessableEntity(e)
    ensures IsUnprocessableEntity(e) ==> e.cls == OtherClientError
  {
  }

  /**
   * The two status lookups disagree: for a client error whose `http_status` attribute holds
   * `None` and whose code is 500, the `or` lookup falls back to the code while the `getattr`
   * lookup stops at `None`, so fetching does not absorb that error.
   */
  lemma StatusLookupsDiffer()
    ensures var e := ProviderError(OtherClientError, Present(None), Present(Some(500)), "");
      StatusOrCode(e) == Some(500) && StatusAttr(e) == None && !IsTransient(e)
  {
  }
}
