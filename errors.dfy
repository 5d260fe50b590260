/**
 * The SDK's exception hierarchy: `X402Error` and its nine subclasses. Every
 * member of the family carries a code and an optional HTTP-like status; the
 * subclasses fix both and keep their own extra fields.
 */
module Errors {
  import opened Common

  /**
   * The fields of a decoded JSON error body that the SDK reads
   * (`error`, `message`, `code`, `limit`); an absent key is `None`.
   */
  datatype JsonObject = JsonObject(error: Option<string>, message: Option<string>, code: Option<string>, limit: Option<int>)

  /** The empty dict `{}`. */
  const EmptyObject := JsonObject(None, None, None, None)

  /** Exceptions raised by the HTTP transport (the `requests` library). */
  datatype Fault =
    | TimedOut                            // requests.Timeout
    | ConnectionFailed(description: string) // any other requests.RequestException
    | InvalidJson                         // requests.JSONDecodeError, raised by `.json()`

  datatype X402Error =
    | Generic(message: string, code: string, status: Option<int>, details: JsonObject)   // X402Error itself
    | InsufficientBalance(required: real, available: real, currency: string := "SOL")
    | PaymentExpired(reference: string, expiredAt: int)
    | PaymentRejected(reason: string, rejectedSignature: Option<string> := None)
    | TransactionFailed(message: string, failedSignature: Option<string> := None, logs: seq<string> := [])
    | InvalidSignature(signature: string)
    | RateLimited(retryAfter: int, limit: int := 0)
    | Network(message: string, originalError: Option<Fault> := None)
    | Configuration(field: string, detail: string)
    | MaxPaymentExceeded(requested: real, maximum: real)

  /** A Python exception: a member of the X402Error family or anything else. */
  datatype Exception = X402(error: X402Error) | Foreign(typeName: string)

  /** The Python class an error is an instance of. */
  datatype ErrorClass =
    | X402ErrorClass | InsufficientBalanceClass | PaymentExpiredClass | PaymentRejectedClass
    | TransactionFailedClass | InvalidSignatureClass | RateLimitClass | NetworkClass
    | ConfigurationClass | MaxPaymentExceededClass

  function ClassOf(e: X402Error): ErrorClass {
    match e
    case Generic(_, _, _, _) => X402ErrorClass
    case InsufficientBalance(_, _, _) => InsufficientBalanceClass
    case PaymentExpired(_, _) => PaymentExpiredClass
    case PaymentRejected(_, _) => PaymentRejectedClass
    case TransactionFailed(_, _, _) => TransactionFailedClass
    case InvalidSignature(_) => InvalidSignatureClass
    case RateLimited(_, _) => RateLimitClass
    case Network(_, _) => NetworkClass
    case Configuration(_, _) => ConfigurationClass
    case MaxPaymentExceeded(_, _) => MaxPaymentExceededClass
  }

  /** The `code` attribute. */
  function Code(e: X402Error): (c: string)
    ensures e.Generic? ==> c == e.code
    ensures !e.Generic? ==> ClassOfCode(c) == Some(ClassOf(e))
  {
    match e
    case Generic(_, code, _, _) => code
    case InsufficientBalance(_, _, _) => "INSUFFICIENT_BALANCE"
    case PaymentExpired(_, _) => "PAYMENT_EXPIRED"
    case PaymentRejected(_, _) => "PAYMENT_REJECTED"
    case TransactionFailed(_, _, _) => "TRANSACTION_FAILED"
    case InvalidSignature(_) => "INVALID_SIGNATURE"
    case RateLimited(_, _) => "RATE_LIMITED"
    case Network(_, _) => "NETWORK_ERROR"
    case Configuration(_, _) => "CONFIG_ERROR"
    case MaxPaymentExceeded(_, _) => "MAX_PAYMENT_EXCEEDED"
  }

  /** The subclass a fixed code belongs to; `None` for codes no subclass uses. */
  function ClassOfCode(c: string): Option<ErrorClass> {
    if c == "INSUFFICIENT_BALANCE" then Some(InsufficientBalanceClass)
    else if c == "PAYMENT_EXPIRED" then Some(PaymentExpiredClass)
    else if c == "PAYMENT_REJECTED" then Some(PaymentRejectedClass)
    else if c == "TRANSACTION_FAILED" then Some(TransactionFailedClass)
    else if c == "INVALID_SIGNATURE" then Some(InvalidSignatureClass)
    else if c == "RATE_LIMITED" then Some(RateLimitClass)
    else if c == "NETWORK_ERROR" then Some(NetworkClass)
    else if c == "CONFIG_ERROR" then Some(ConfigurationClass)
    else if c == "MAX_PAYMENT_EXCEEDED" then Some(MaxPaymentExceededClass)
    else None
  }

  /** The `status_code` attribute. */
  function Status(e: X402Error): (s: Option<int>)
    ensures e.Generic? ==> s == e.status
    ensures !e.Generic? ==> (s.None? <==> e.Configuration?)
    ensures s == Some(402) && !e.Generic? <==>
              e.InsufficientBalance? || e.PaymentRejected? || e.MaxPaymentExceeded?
  {
    match e
    case Generic(_, _, status, _) => status
    case InsufficientBalance(_, _, _) => Some(402)
    case PaymentExpired(_, _) => Some(410)
    case PaymentRejected(_, _) => Some(402)
    case TransactionFailed(_, _, _) => Some(500)
    case InvalidSignature(_) => Some(400)
    case RateLimited(_, _) => Some(429)
    case Network(_, _) => Some(0)
    case Configuration(_, _) => None
    case MaxPaymentExceeded(_, _) => Some(402)
  }

  /** The `details` attribute: subclasses never pass details, so theirs is `{}`. */
  function Details(e: X402Error): (d: JsonObject)
    ensures !e.Generic? ==> d == EmptyObject
  {
    if e.Generic? then e.details else EmptyObject
  }

  /**
   * `X402Error(message, code="X402_ERROR", status_code=None, details=None)`:
   * the defaults, and `details or {}`.
   */
  function NewError(message: string, code: string := "X402_ERROR", status: Option<int> := None,
                    details: Option<JsonObject> := None): (e: X402Error)
    ensures ClassOf(e) == X402ErrorClass
    ensures Code(e) == code && Status(e) == status
    ensures Details(e) == (if details.Some? then details.value else EmptyObject)
  {
    Generic(message, code, status, details.GetOr(EmptyObject))
  }

  /** `is_x402_error`: an instance of the X402Error family. */
  function IsX402Error(ex: Exception): (b: bool)
    ensures b <==> exists e :: ex == X402(e)
  {
    ex.X402?
  }
}
