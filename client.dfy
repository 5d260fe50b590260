/**
 * The client half of the 402 handshake: `X402Client.request`, its header
 * parser and its error classifier, the transaction-history endpoint builder
 * and the client's configuration.
 *
 * The HTTP transport, the clock and the payment executor are parameters
 * (`Env`): the transport answers the k-th send of a call with a response or
 * a `requests` exception, the clock gives the `time.time()` reading taken
 * after the k-th send, the local timezone's offset from UTC decides which
 * timestamps `datetime.fromtimestamp` accepts, and the executor turns a
 * requirement into a signature. Sleeps are recorded, not performed.
 */
module Client {
  import opened Common
  import opened Errors
  import Text

  const DefaultBaseUrl := "https://api.x402agent.tech"
  const PaymentSignatureHeader := "X-402-Payment-Signature"
  const PaymentReferenceHeader := "X-402-Payment-Reference"
  const InvalidChallengeMessage := "Invalid 402 response: missing required headers"
  const MaxRetryMessage := "Max retry attempts exceeded"

  /** The X-402-* headers of a response, already decoded from their text; absent is `None`. */
  datatype PaymentHeaders = PaymentHeaders(
    version: Option<string>, amount: Option<real>, currency: Option<string>, recipient: Option<string>,
    reference: Option<string>, expires: Option<int>, network: Option<string>)

  /** A parsed challenge (types.py `PaymentRequirement`). */
  datatype Requirement = Requirement(amount: real, currency: string, recipient: string, reference: string,
                                     expires: int, network: Option<string>)

  /** A response body: empty text, a JSON object, or text that is not JSON. */
  datatype Payload = NoContent | Json(body: JsonObject) | Unparsable(text: string)

  /** An HTTP response; `retryAfter` is the decoded `Retry-After` header. */
  datatype Response = Response(status: int, headers: map<string, string>, payment: PaymentHeaders,
                               retryAfter: Option<int>, payload: Payload)

  /** What one `session.request` call does: answer, or raise. */
  datatype SendResult = Reply(response: Response) | Raise(fault: Fault)

  /** What the client put on the wire for one send. */
  datatype Sent = Sent(httpMethod: string, url: string, headers: map<string, string>, timeout: int)

  datatype PaymentMade = PaymentMade(amount: real, currency: string, signature: string)

  /** types.py `X402Response`; `data` is the decoded JSON body. */
  datatype X402Response = X402Response(data: Option<JsonObject>, status: int, headers: map<string, string>,
                                       paymentMade: Option<PaymentMade>)

  /** A Python exception outside the X402Error and `requests` families: no `except` clause of the loop catches it. */
  datatype Uncaught =
    | SleepRejected        // `time.sleep`: ValueError for a negative length, OverflowError for one too long
    | TimestampOutOfRange  // `datetime.fromtimestamp`: a local date (or the one a day earlier) outside the years 1 to 9999

  /**
   * How `request` ends: a return, an X402Error, a raw `requests` exception
   * (line 169), or an uncaught exception from the standard library.
   */
  datatype Outcome =
    | Returned(response: X402Response) | Failed(error: X402Error) | FailedRaw(fault: Fault) | Aborted(uncaught: Uncaught)

  /** One executor call: the send index of the challenge, the requirement paid and the signature. */
  datatype Payment = Payment(challengeIndex: nat, requirement: Requirement, signature: string)

  /** `utcOffset(t)` is the local timezone's offset from UTC, in seconds, at the timestamp `t`. */
  datatype Env = Env(transport: nat -> SendResult, clock: nat -> real, executor: Requirement -> string,
                     utcOffset: int -> int)

  /** 0001-01-01T00:00:00 and 9999-12-31T23:59:59 in seconds since the epoch: the dates `datetime` can hold. */
  const FirstDatetimeSecond := -62135596800
  const LastDatetimeSecond := 253402300799

  /** How far back `datetime.fromtimestamp` probes the local time to detect a fold: one day. */
  const MaxFoldSeconds := 86400

  /**
   * `datetime.fromtimestamp(t)` returns, rather than raising: the local date
   * of `t` is one `datetime` can hold, and so is the local date of
   * `t - MaxFoldSeconds`, which the interpreter converts too when it probes
   * for a fold in the local time.
   */
  predicate FromTimestampDefined(env: Env, t: int) {
    && FirstDatetimeSecond <= t + env.utcOffset(t) <= LastDatetimeSecond
    && FirstDatetimeSecond <= (t - MaxFoldSeconds) + env.utcOffset(t - MaxFoldSeconds)
  }

  /** 2^63 nanoseconds in seconds: the interpreter converts a sleep length to a signed 64-bit nanosecond count. */
  const SleepLimitSeconds: real := 9223372036.854775808

  /** `time.sleep(d)` accepts `d`: it is not negative and its nanosecond count fits. */
  predicate SleepAccepted(d: real) {
    0.0 <= d < SleepLimitSeconds
  }

  /** types.py `X402Config` (the fields `request` uses). */
  datatype Config = Config(apiKey: string, baseUrl: string, network: string, maxPaymentPerRequest: real,
                           timeout: int, retryAttempts: int, retryDelay: real)

  /** Everything one `request` call fixes before its loop starts (lines 81-86). */
  datatype Call = Call(url: string, httpMethod: string, headers: map<string, string>, timeout: int,
                       ceiling: real, autoSign: bool, keypaired: bool, retryAttempts: int, retryDelay: real)

  /** `response.ok` in `requests`: false exactly for 4xx and 5xx statuses. */
  predicate IsOk(status: int) {
    !(400 <= status < 600)
  }

  /** The session headers installed by the constructor. */
  function SessionHeaders(apiKey: string): map<string, string> {
    map["Authorization" := "Bearer " + apiKey, "Content-Type" := "application/json", "X-402-SDK-Version" := "1.0.0"]
  }

  /** `_parse_payment_requirement`. */
  function ParseRequirement(h: PaymentHeaders): (r: Result<Requirement, X402Error>)
    ensures r.Failure? <==> h.amount.GetOr(0.0) == 0.0 || !Truthy(h.recipient) || !Truthy(h.reference)
    ensures r.Failure? ==> r.error == NewError(InvalidChallengeMessage, "INVALID_402")
    ensures r.Success? ==> r.value.amount != 0.0 && r.value.recipient != "" && r.value.reference != ""
    ensures r.Success? ==>
      r.value == Requirement(h.amount.value, h.currency.GetOr("SOL"), h.recipient.value, h.reference.value,
                             h.expires.GetOr(0), h.network)
  {
    var amount := h.amount.GetOr(0.0);
    var currency := h.currency.GetOr("SOL");
    var recipient := h.recipient.GetOr("");
    var reference := h.reference.GetOr("");
    var expires := h.expires.GetOr(0);
    if amount == 0.0 || recipient == "" || reference == "" then
      Failure(NewError(InvalidChallengeMessage, "INVALID_402"))
    else
      Success(Requirement(amount, currency, recipient, reference, expires, h.network))
  }

  /** The body `_handle_api_error` reads: a JSON object, or `{}` when decoding fails. */
  function ErrorBody(p: Payload): JsonObject {
    if p.Json? then p.body else EmptyObject
  }

  /** `body.get("error") or body.get("message") or "Unknown API error"`. */
  function ErrorMessage(body: JsonObject): (m: string)
    ensures m != ""
    ensures Truthy(body.error) ==> m == body.error.value
    ensures !Truthy(body.error) && Truthy(body.message) ==> m == body.message.value
    ensures !Truthy(body.error) && !Truthy(body.message) ==> m == "Unknown API error"
  {
    if Truthy(body.error) then body.error.value
    else if Truthy(body.message) then body.message.value
    else "Unknown API error"
  }

  /** `_handle_api_error`: the error it always raises for a failed response. */
  function ClassifyError(r: Response): (e: X402Error)
    ensures e.RateLimited? <==> r.status == 429
    ensures e.RateLimited? ==>
      e.retryAfter == r.retryAfter.GetOr(60) && e.limit == ErrorBody(r.payload).limit.GetOr(0)
    ensures !e.RateLimited? ==>
      e.Generic? && Status(e) == Some(r.status) && Code(e) == ErrorBody(r.payload).code.GetOr("API_ERROR")
      && e.message == ErrorMessage(ErrorBody(r.payload)) && Details(e) == ErrorBody(r.payload)
  {
    var body := ErrorBody(r.payload);
    var message := ErrorMessage(body);
    var code := body.code.GetOr("API_ERROR");
    if r.status == 429 then RateLimited(r.retryAfter.GetOr(60), body.limit.GetOr(0))
    else NewError(message, code, Some(r.status), Some(body))
  }

  /** The headers of the paid retry (lines 120-122). */
  function ProofHeaders(headers: map<string, string>, signature: string, reference: string): map<string, string> {
    headers[PaymentSignatureHeader := signature][PaymentReferenceHeader := reference]
  }

  /** An exception raised inside the `try` of the loop. */
  datatype Raised = RaisedError(error: X402Error) | RaisedFault(fault: Fault) | RaisedUncaught(uncaught: Uncaught)

  /** How the `try` block of one iteration ends. */
  datatype Exit = Returns(response: X402Response) | Raises(raised: Raised)

  /** The sends, payments and exit of one `try` block. */
  datatype TryResult = TryResult(sent: seq<Sent>, paid: seq<Payment>, exit: Exit)

  /** The `try` block of one loop iteration (lines 94-153), `k` being the number of earlier sends. */
  function TryBlock(call: Call, env: Env, k: nat): (t: TryResult)
    ensures 1 <= |t.sent| <= 2 && |t.paid| == |t.sent| - 1
    ensures t.sent[0] == Sent(call.httpMethod, call.url, call.headers, call.timeout)
    ensures t.exit.Raises? && t.exit.raised.RaisedError? ==> !t.exit.raised.error.Network?
  {
    var first := Sent(call.httpMethod, call.url, call.headers, call.timeout);
    match env.transport(k)
    case Raise(f) => TryResult([first], [], Raises(RaisedFault(f)))
    case Reply(r) =>
      if r.status == 402 && call.autoSign then
        match ParseRequirement(r.payment)
        case Failure(e) => TryResult([first], [], Raises(RaisedError(e)))
        case Success(req) =>
          if req.amount > call.ceiling then
            TryResult([first], [], Raises(RaisedError(MaxPaymentExceeded(req.amount, call.ceiling))))
          else if env.clock(k) > req.expires as real then
            if FromTimestampDefined(env, req.expires) then
              TryResult([first], [], Raises(RaisedError(PaymentExpired(req.reference, req.expires))))
            else TryResult([first], [], Raises(RaisedUncaught(TimestampOutOfRange)))
          else if !call.keypaired then
            TryResult([first], [], Raises(RaisedError(NewError("Keypair required for automatic payments", "NO_KEYPAIR"))))
          else
            var signature := env.executor(req);
            var paid := [Payment(k, req, signature)];
            var sent := [first, Sent(call.httpMethod, call.url, ProofHeaders(call.headers, signature, req.reference), call.timeout)];
            match env.transport(k + 1)
            case Raise(f) => TryResult(sent, paid, Raises(RaisedFault(f)))
            case Reply(r2) =>
              if !IsOk(r2.status) then TryResult(sent, paid, Raises(RaisedError(ClassifyError(r2))))
              else if r2.payload.Json? then
                TryResult(sent, paid, Returns(X402Response(Some(r2.payload.body), r2.status, r2.headers,
                                                           Some(PaymentMade(req.amount, req.currency, signature)))))
              else TryResult(sent, paid, Raises(RaisedFault(InvalidJson)))
      else if !IsOk(r.status) then TryResult([first], [], Raises(RaisedError(ClassifyError(r))))
      else if r.payload.NoContent? then TryResult([first], [], Returns(X402Response(None, r.status, r.headers, None)))
      else if r.payload.Json? then TryResult([first], [], Returns(X402Response(Some(r.payload.body), r.status, r.headers, None)))
      else TryResult([first], [], Raises(RaisedFault(InvalidJson)))
  }

  /** What the loop does after an iteration raised: stop, or sleep and go round again. */
  datatype Next = Finish(outcome: Outcome) | Again(delay: real, lastError: Option<Fault>)

  /** The `except` clauses (lines 155-167), `attempts` being the iteration's number. */
  function Except(call: Call, attempts: int, raised: Raised): (next: Next)
    ensures next.Again? ==> SleepAccepted(next.delay)
    ensures next.Again? ==>
      || (raised.RaisedError? && raised.error.RateLimited? && next.lastError.None?)
      || (raised.RaisedFault? && !raised.fault.TimedOut? && attempts < call.retryAttempts
          && next.lastError == Some(raised.fault))
    ensures raised.RaisedUncaught? ==> next == Finish(Aborted(raised.uncaught))
  {
    match raised
    case RaisedError(e) =>
      if !e.RateLimited? then Finish(Failed(e))
      else if SleepAccepted(e.retryAfter as real) then Again(e.retryAfter as real, None)
      else Finish(Aborted(SleepRejected))
    case RaisedFault(f) =>
      if f.TimedOut? then Finish(Failed(Network("Request timed out", None)))
      else if attempts < call.retryAttempts then
        if SleepAccepted(call.retryDelay * attempts as real) then Again(call.retryDelay * attempts as real, Some(f))
        else Finish(Aborted(SleepRejected))
      else Finish(Failed(Network("Network request failed", Some(f))))
    case RaisedUncaught(u) => Finish(Aborted(u))
  }

  /** Everything a call did: its sends, its sleeps and its executor calls, in order. */
  datatype Trace = Trace(sent: seq<Sent>, sleeps: seq<real>, payments: seq<Payment>)

  /** How a call ended, what it did, and the final value of `attempts`. */
  datatype RunResult = RunResult(outcome: Outcome, trace: Trace, iterations: int)

  function Prepend(t: Trace, r: RunResult): RunResult {
    RunResult(r.outcome, Trace(t.sent + r.trace.sent, t.sleeps + r.trace.sleeps, t.payments + r.trace.payments),
              r.iterations)
  }

  lemma PrependTwice(t1: Trace, t2: Trace, r: RunResult)
    ensures Prepend(t1, Prepend(t2, r))
         == Prepend(Trace(t1.sent + t2.sent, t1.sleeps + t2.sleeps, t1.payments + t2.payments), r)
  {
    assert t1.sent + (t2.sent + r.trace.sent) == (t1.sent + t2.sent) + r.trace.sent;
    assert t1.sleeps + (t2.sleeps + r.trace.sleeps) == (t1.sleeps + t2.sleeps) + r.trace.sleeps;
    assert t1.payments + (t2.payments + r.trace.payments) == (t1.payments + t2.payments) + r.trace.payments;
  }

  /** Line 169: `raise last_error or NetworkError("Max retry attempts exceeded")`. */
  function Exhausted(lastError: Option<Fault>): Outcome {
    if lastError.Some? then FailedRaw(lastError.value) else Failed(Network(MaxRetryMessage, None))
  }

  /**
   * The loop of `request` (lines 91-169) from the state where `attempts`
   * iterations have run, `k` sends have been made and `last_error` is `lastError`.
   */
  function Run(call: Call, env: Env, attempts: int, k: nat, lastError: Option<Fault>): (r: RunResult)
    ensures attempts < call.retryAttempts ==> attempts < r.iterations <= call.retryAttempts
    ensures attempts >= call.retryAttempts ==> r.iterations == attempts && r.outcome == Exhausted(lastError)
    decreases call.retryAttempts - attempts, 1
  {
    if attempts >= call.retryAttempts then RunResult(Exhausted(lastError), Trace([], [], []), attempts)
    else Continue(call, env, attempts + 1, k, lastError, TryBlock(call, env, k))
  }

  /** The rest of the loop once iteration `n` ran its `try` block with result `t`. */
  function Continue(call: Call, env: Env, n: int, k: nat, lastError: Option<Fault>, t: TryResult): (r: RunResult)
    requires n <= call.retryAttempts
    ensures n <= r.iterations <= call.retryAttempts
    decreases call.retryAttempts - n + 1, 0
  {
    match t.exit
    case Returns(x) => RunResult(Returned(x), Trace(t.sent, [], t.paid), n)
    case Raises(raised) =>
      match Except(call, n, raised)
      case Finish(o) => RunResult(o, Trace(t.sent, [], t.paid), n)
      case Again(d, le) =>
        Prepend(Trace(t.sent, [d], t.paid), Run(call, env, n, k + |t.sent|, if le.Some? then le else lastError))
  }

  /** One iteration of the loop from `attempts == a` with `k` sends made, its `try` block giving `t`. */
  lemma RunOnce(call: Call, env: Env, a: int, k: nat, lastError: Option<Fault>, t: TryResult)
    requires a < call.retryAttempts && t == TryBlock(call, env, k)
    ensures t.exit.Returns? ==>
      Run(call, env, a, k, lastError) == RunResult(Returned(t.exit.response), Trace(t.sent, [], t.paid), a + 1)
    ensures t.exit.Raises? && Except(call, a + 1, t.exit.raised).Finish? ==>
      Run(call, env, a, k, lastError)
        == RunResult(Except(call, a + 1, t.exit.raised).outcome, Trace(t.sent, [], t.paid), a + 1)
    ensures t.exit.Raises? && Except(call, a + 1, t.exit.raised).Again? ==>
      var next := Except(call, a + 1, t.exit.raised);
      Run(call, env, a, k, lastError)
        == Prepend(Trace(t.sent, [next.delay], t.paid),
                   Run(call, env, a + 1, k + |t.sent|, if next.lastError.Some? then next.lastError else lastError))
  {
    assert Run(call, env, a, k, lastError) == Continue(call, env, a + 1, k, lastError, t);
  }

  /** One `try` block, performed step by step. */
  method SendAndSettle(call: Call, env: Env, k: nat) returns (t: TryResult)
    ensures t == TryBlock(call, env, k)
  {
    var first := Sent(call.httpMethod, call.url, call.headers, call.timeout);
    var answer := env.transport(k);
    if answer.Raise? {
      return TryResult([first], [], Raises(RaisedFault(answer.fault)));
    }
    var response := answer.response;
    if response.status == 402 && call.autoSign {
      var parsed := ParseRequirement(response.payment);
      if parsed.Failure? {
        return TryResult([first], [], Raises(RaisedError(parsed.error)));
      }
      var requirement := parsed.value;
      if requirement.amount > call.ceiling {
        return TryResult([first], [], Raises(RaisedError(MaxPaymentExceeded(requirement.amount, call.ceiling))));
      }
      if env.clock(k) > requirement.expires as real {
        if !FromTimestampDefined(env, requirement.expires) {
          return TryResult([first], [], Raises(RaisedUncaught(TimestampOutOfRange)));
        }
        return TryResult([first], [], Raises(RaisedError(PaymentExpired(requirement.reference, requirement.expires))));
      }
      if !call.keypaired {
        return TryResult([first], [], Raises(RaisedError(NewError("Keypair required for automatic payments", "NO_KEYPAIR"))));
      }
      var signature := env.executor(requirement);
      var paid := [Payment(k, requirement, signature)];
      var retryHeaders := call.headers;
      retryHeaders := retryHeaders[PaymentSignatureHeader := signature];
      retryHeaders := retryHeaders[PaymentReferenceHeader := requirement.reference];
      var sent := [first, Sent(call.httpMethod, call.url, retryHeaders, call.timeout)];
      var retryAnswer := env.transport(k + 1);
      if retryAnswer.Raise? {
        return TryResult(sent, paid, Raises(RaisedFault(retryAnswer.fault)));
      }
      var retryResponse := retryAnswer.response;
      if !IsOk(retryResponse.status) {
        return TryResult(sent, paid, Raises(RaisedError(ClassifyError(retryResponse))));
      }
      if !retryResponse.payload.Json? {
        return TryResult(sent, paid, Raises(RaisedFault(InvalidJson)));
      }
      var made := PaymentMade(requirement.amount, requirement.currency, signature);
      return TryResult(sent, paid, Returns(X402Response(Some(retryResponse.payload.body), retryResponse.status,
                                                        retryResponse.headers, Some(made))));
    }
    if !IsOk(response.status) {
      return TryResult([first], [], Raises(RaisedError(ClassifyError(response))));
    }
    match response.payload
    case NoContent =>
      t := TryResult([first], [], Returns(X402Response(None, response.status, response.headers, None)));
    case Json(body) =>
      t := TryResult([first], [], Returns(X402Response(Some(body), response.status, response.headers, None)));
    case Unparsable(_) =>
      t := TryResult([first], [], Raises(RaisedFault(InvalidJson)));
  }

  /** The `except` clauses, tried in order. */
  method Recover(call: Call, attempts: int, raised: Raised) returns (next: Next)
    ensures next == Except(call, attempts, raised)
  {
    if raised.RaisedUncaught? {
      return Finish(Aborted(raised.uncaught));
    }
    if raised.RaisedError? {
      var e := raised.error;
      if !e.RateLimited? {
        return Finish(Failed(e));
      }
      if !SleepAccepted(e.retryAfter as real) {
        return Finish(Aborted(SleepRejected));
      }
      return Again(e.retryAfter as real, None);
    }
    var f := raised.fault;
    if f.TimedOut? {
      return Finish(Failed(Network("Request timed out", None)));
    }
    if attempts < call.retryAttempts {
      var delay := call.retryDelay * attempts as real;
      if !SleepAccepted(delay) {
        return Finish(Aborted(SleepRejected));
      }
      return Again(delay, Some(f));
    }
    return Finish(Failed(Network("Network request failed", Some(f))));
  }

  /** The parameters of `get_transaction_history` that are present, in order (lines 234-240). */
  function HistoryParams(limit: int, before: Option<string>, after: Option<string>): (ps: seq<string>)
    ensures |ps| <= 3
    ensures forall i :: 0 <= i < |ps| ==> ps[i] != ""
    ensures ps == [] <==> limit == 0 && !Truthy(before) && !Truthy(after)
  {
    (if limit != 0 then ["limit=" + Text.IntToDecimal(limit)] else [])
    + (if Truthy(before) then ["before=" + before.value] else [])
    + (if Truthy(after) then ["after=" + after.value] else [])
  }

  /** The endpoint `get_transaction_history` requests (lines 234-245). */
  method TransactionHistoryEndpoint(address: string, limit: int, before: Option<string>, after: Option<string>)
    returns (endpoint: string)
    ensures HistoryParams(limit, before, after) == [] ==> endpoint == "/transactions/" + address
    ensures HistoryParams(limit, before, after) != [] ==>
      endpoint == "/transactions/" + address + "?" + Text.Join(HistoryParams(limit, before, after), '&')
  {
    var params: seq<string> := [];
    if limit != 0 {
      params := params + ["limit=" + Text.IntToDecimal(limit)];
    }
    if Truthy(before) {
      params := params + ["before=" + before.value];
    }
    if Truthy(after) {
      params := params + ["after=" + after.value];
    }
    var query := Text.Join(params, '&');
    Text.JoinEmpty(params, '&');
    endpoint := "/transactions/" + address;
    if query != "" {
      endpoint := endpoint + "?" + query;
    }
  }

  /**
   * One pass of the loop body (lines 92-167) from `attempts == a`, `k`
   * sends made and `last_error == lastError`: what it sent and paid, and
   * either how the call ends or the sleep it takes and the `last_error` it
   * goes round again with.
   */
  method Iterate(call: Call, env: Env, a: int, k: nat, lastError: Option<Fault>)
    returns (sent: seq<Sent>, paid: seq<Payment>, next: Next)
    requires a < call.retryAttempts
    ensures next.Finish? ==> Run(call, env, a, k, lastError) == RunResult(next.outcome, Trace(sent, [], paid), a + 1)
    ensures next.Again? ==>
      Run(call, env, a, k, lastError)
        == Prepend(Trace(sent, [next.delay], paid), Run(call, env, a + 1, k + |sent|, next.lastError))
  {
    var t := SendAndSettle(call, env, k);
    RunOnce(call, env, a, k, lastError, t);
    sent, paid := t.sent, t.paid;
    if t.exit.Returns? {
      return sent, paid, Finish(Returned(t.exit.response));
    }
    next := Recover(call, a + 1, t.exit.raised);
    if next.Again? && next.lastError.None? {
      next := Again(next.delay, lastError);
    }
  }

  /** The `while` loop of `request` (lines 88-169). */
  method Loop(call: Call, env: Env)
    returns (outcome: Outcome, sent: seq<Sent>, sleeps: seq<real>, payments: seq<Payment>, attempts: int)
    ensures RunResult(outcome, Trace(sent, sleeps, payments), attempts) == Run(call, env, 0, 0, None)
  {
    attempts := 0;
    var lastError: Option<Fault> := None;
    sent, sleeps, payments := [], [], [];
    while attempts < call.retryAttempts
      invariant 0 <= attempts
      invariant Run(call, env, 0, 0, None) == Prepend(Trace(sent, sleeps, payments), Run(call, env, attempts, |sent|, lastError))
      decreases call.retryAttempts - attempts
    {
      ghost var before := Trace(sent, sleeps, payments);
      ghost var k := |sent|;
      var newSent, paid, next := Iterate(call, env, attempts, |sent|, lastError);
      attempts := attempts + 1;
      sent := sent + newSent;
      payments := payments + paid;
      if next.Finish? {
        outcome := next.outcome;
        assert sleeps + [] == sleeps;
        return;
      }
      sleeps := sleeps + [next.delay];
      lastError := next.lastError;
      PrependTwice(before, Trace(newSent, [next.delay], paid), Run(call, env, attempts, k + |newSent|, lastError));
    }
    outcome := if lastError.Some? then FailedRaw(lastError.value) else Failed(Network(MaxRetryMessage, None));
  }

  /** `X402Client`: its configuration, its session headers and its keypair. */
  class X402Client {
    const config: Config
    const sessionHeaders: map<string, string>
    var keypair: Option<string>

    constructor(apiKey: string, baseUrl: string := DefaultBaseUrl, network: string := "mainnet-beta",
                maxPaymentPerRequest: real := 0.1, timeout: int := 30, retryAttempts: int := 3,
                retryDelay: real := 1.0)
      ensures config == Config(apiKey, Text.RStripSlash(baseUrl), network, maxPaymentPerRequest, timeout,
                               retryAttempts, retryDelay)
      ensures sessionHeaders == SessionHeaders(apiKey)
      ensures keypair == None
    {
      config := Config(apiKey, Text.RStripSlash(baseUrl), network, maxPaymentPerRequest, timeout,
                       retryAttempts, retryDelay);
      sessionHeaders := SessionHeaders(apiKey);
      keypair := None;
    }

    /** `set_keypair`. */
    method SetKeypair(k: Option<string>)
      modifies this
      ensures keypair == k
    {
      keypair := k;
    }

    /** The fixed part of a `request` call: merged headers, `timeout or ...`, `max_payment or ...`. */
    function Plan(url: string, httpMethod: string, headers: map<string, string>, timeout: Option<int>,
                  maxPayment: Option<real>, autoSign: bool): Call
      reads this
    {
      Call(url, httpMethod, sessionHeaders + headers,
           if timeout.Some? && timeout.value != 0 then timeout.value else config.timeout,
           if maxPayment.Some? && maxPayment.value != 0.0 then maxPayment.value else config.maxPaymentPerRequest,
           autoSign, keypair.Some?, config.retryAttempts, config.retryDelay)
    }

    /** `request`: the retry and payment loop. */
    method Request(url: string, httpMethod: string, headers: map<string, string>, timeout: Option<int>,
                   maxPayment: Option<real>, autoSign: bool, env: Env)
      returns (outcome: Outcome, sent: seq<Sent>, sleeps: seq<real>, payments: seq<Payment>, attempts: int)
      ensures RunResult(outcome, Trace(sent, sleeps, payments), attempts)
              == Run(Plan(url, httpMethod, headers, timeout, maxPayment, autoSign), env, 0, 0, None)
    {
      var requestHeaders := sessionHeaders;
      requestHeaders := requestHeaders + headers;
      var actualTimeout := if timeout.Some? && timeout.value != 0 then timeout.value else config.timeout;
      var actualMaxPayment := if maxPayment.Some? && maxPayment.value != 0.0 then maxPayment.value
                              else config.maxPaymentPerRequest;
      var call := Call(url, httpMethod, requestHeaders, actualTimeout, actualMaxPayment, autoSign, keypair.Some?,
                       config.retryAttempts, config.retryDelay);
      assert call == Plan(url, httpMethod, headers, timeout, maxPayment, autoSign);
      outcome, sent, sleeps, payments, attempts := Loop(call, env);
    }

    /** `_api_request`: `base_url + "/api" + endpoint`, never auto-paying. */
    function ApiUrl(endpoint: string): string
      reads this
    {
      config.baseUrl + "/api" + endpoint
    }

    /** `_api_request` (lines 258-266). */
    method ApiRequest(endpoint: string, httpMethod: string, env: Env)
      returns (outcome: Outcome, sent: seq<Sent>, sleeps: seq<real>, payments: seq<Payment>, attempts: int)
      ensures RunResult(outcome, Trace(sent, sleeps, payments), attempts)
              == Run(Plan(ApiUrl(endpoint), httpMethod, map[], None, None, false), env, 0, 0, None)
    {
      outcome, sent, sleeps, payments, attempts := Request(ApiUrl(endpoint), httpMethod, map[], None, None, false, env);
    }
  }
}
