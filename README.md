# x402 Python SDK — a Dafny model of the 402 payment handshake

This project models the parts of the x402 Python SDK that carry real control flow:

- **The client's retry and payment loop.** This is `X402Client.request`. It sends a request. When the server answers `402 Payment Required`, it parses the challenge headers. It then checks the amount against the ceiling, then the expiry, then the keypair. It calls the payment executor and resends the request with the proof headers. Failed responses are classified. Transport faults are retried with linear backoff, and it sleeps on rate limits.
- **The server's replay guard.** This is the `wrapped` view installed by `X402Middleware.require_payment`. It keeps a process-wide set of consumed payment references. It rejects replays before verifying anything. It asks the verification API, consumes the reference and runs the handler. When a proof header is missing, it issues a fresh challenge with a reference from `_generate_reference`. The standalone `require_payment` decorator is modelled too.
- **The error taxonomy.** This is `X402Error` with its nine subclasses, each with a fixed code and status.
- **The address helpers.** These are `is_valid_solana_address` and `shorten_address`.
- **The legacy single-file client.** This covers `handle_402` and the base-URL normalisation.

## How it is modelled

- **Modules.** Each source file has its own module: `Client`, `Middleware`, `Errors`, `Wallet` and `LegacySdk`. `Text` holds the string helpers they share: `rstrip`, join/split and decimal/hex digits.
- **Where the properties live.** The properties are proved in `ClientProperties`, `MiddlewareProperties`, `ClientScenarios` and `Handshake`. `Handshake` connects the two halves.
- **The client loop.** It is the method `Client.Loop`, called by `Client.X402Client.Request`. The method is proved equal to the recursive specification `Client.Run`. `Run` is built from `Client.TryBlock`, which is the `try` body of one iteration, and `Client.Except`, which is its `except` clauses. Each of these two also has a step-by-step method proved equal to it: `SendAndSettle` and `Recover`. `Client.Iterate` runs one iteration with them and is proved to be one unfolding of `Run`.
- **The client's environment.** The transport, the clock and the executor are an `Env` of functions:
  - the transport answers the k-th send of a call;
  - the clock gives the `time.time()` reading taken after the k-th send;
  - the executor turns a requirement into a signature;
  - the local timezone gives the UTC offset, in seconds, that `datetime.fromtimestamp` applies to a timestamp.

  Sleeps are recorded in the trace, not performed. A run returns its outcome and the final value of `attempts`. It also returns a trace: every send (method, URL, headers, timeout), every sleep and every executor call.
- **The consumed-reference set.** The module-global `_used_references` is a `ReferenceStore` object shared by every `X402Middleware`. `Wrapped` changes it in place and is proved equal to the pure specification `Middleware.Handle`. `Handle` also records the outside calls in order: the verifier, `on_payment_failed`, `on_payment_received`, the handler and the insertion into the set.
- **Header values.** They are modelled already decoded, as `Option` values, one per `X-402-*` header.

### Behaviour of the code worth knowing

These follow from the code as written and are easy to miss when reading it:

- **Amounts.** The challenge parser rejects only a zero or absent amount, not a negative one (`ClientScenarios.NegativeAmountAccepted`).
- **Expiry.** A challenge counts as expired only when the clock is strictly past `expires` (`ClientScenarios.PaidAtExpiryInstant`).
- **Missing keypair.** It raises a plain `X402Error` with code `NO_KEYPAIR`, not a `ConfigurationError`.
- **A 429 on the paid retry.** It raises `RateLimitError`. The loop catches it, sleeps and starts again from a fresh first request. That request draws a new challenge, which is paid again (`ClientScenarios.RateLimitedPaidRetryPaysTwice`). The bound that holds is payments ≤ iterations ≤ `retry_attempts` (`ClientProperties.PaymentsBoundedByAttempts`).
- **Bodies that fail to decode.** `requests` 2.28 and later makes `.json()` raise a `RequestException` when the body is not JSON. So a non-JSON body, or an empty body on the paid retry, is retried like a dropped connection, and the challenge is paid again (`ClientScenarios.EmptyPaidBodyPaysAgain`).
- **Leaving the loop.** The code raises `last_error` when there is one. If the last iteration was rate-limited after an earlier transport fault, that is the raw `requests` exception, not a `NetworkError` (`ClientScenarios.FaultThenRateLimitRaisesRaw`, outcome `FailedRaw`).
- **Exceptions the loop does not catch.** `time.sleep` raises for a negative length, so a negative `Retry-After` or `retry_delay` ends the call with that exception instead of a retry (`ClientScenarios.NegativeRetryAfterRaises`, `ClientScenarios.NegativeRetryDelayRaises`). Building the `PaymentExpiredError` calls `datetime.fromtimestamp`, which raises for an expiry outside the years 1 to 9999, and also for one in the first day of year 1 (`ClientScenarios.OutOfRangeExpiryRaises`, `ClientScenarios.FirstDayOfYearOneRaises`). These end as outcome `Aborted`.
- **Exceptions after the reference is consumed.** The handler and `on_payment_received` run inside the same `try` as the verification call. An exception from either is answered as `VERIFICATION_ERROR`, and the reference stays consumed.

## Model

| member | source | states |
|---|---|---|
| `Text.RStripSlash` | python/x402_sdk/client.py:50 | `base_url.rstrip("/")` is a prefix of the input, does not end in '/', and only '/' characters were removed |
| `Text.RStripSlashIdempotent` | python/x402_sdk.py:22 | normalising an already normalised base URL changes nothing |
| `Text.HexDigits` | python/x402_sdk/middleware.py:209 | `hex(n)[2:]` is a non-empty string of lower-case hex digits |
| `Text.HexRoundTrip` | python/x402_sdk/middleware.py:209 | the hex digits of `n` decode back to `n` |
| `Errors.Code` | python/x402_sdk/errors.py:9-134 | a plain `X402Error` keeps its code; each subclass's fixed code decodes back to that subclass and to no other |
| `Errors.Status` | python/x402_sdk/errors.py:26-134 | a plain `X402Error` keeps its status; among the subclasses, only `ConfigurationError` has none, and status 402 belongs exactly to the insufficient-balance, rejected and max-payment kinds |
| `Errors.Details` | python/x402_sdk/errors.py:23 | subclasses never pass details, so theirs is `{}` |
| `Errors.NewError` | python/x402_sdk/errors.py:12-23 | the code defaults to `X402_ERROR` and the status to `None`; `details` becomes `{}` when absent |
| `Errors.IsX402Error` | python/x402_sdk/errors.py:137-139 | true exactly for members of the `X402Error` family |
| `Client.ParseRequirement` | python/x402_sdk/client.py:268-289 | fails with `INVALID_402` exactly when the amount is absent or zero, or the recipient or reference is absent or empty; otherwise copies the fields, defaulting the currency to "SOL" and expires to 0 |
| `Client.ErrorMessage` | python/x402_sdk/client.py:303 | the message is `error`, else `message`, else "Unknown API error"; it is never empty |
| `Client.ClassifyError` | python/x402_sdk/client.py:296-310 | 429 and only 429 gives `RateLimitError`, with Retry-After or 60 and the limit or 0; any other status gives an `X402Error` with that status, the code or `API_ERROR`, the body as details, and `{}` for a body that is not JSON |
| `Client.HistoryParams` | python/x402_sdk/client.py:234-240 | at most three non-empty parameters; none exactly when `limit`, `before` and `after` are all falsy |
| `Client.TransactionHistoryEndpoint` | python/x402_sdk/client.py:234-245 | the endpoint is `/transactions/<address>`, followed by `?` and the parameters joined by `&` only when some parameter is present |
| `Client.TryBlock` | python/x402_sdk/client.py:94-153 | one `try` block sends once or twice, the first time with the call's headers, URL, method and timeout, and makes a payment exactly when it sends twice; it never raises a `NetworkError` itself |
| `Client.Except` | python/x402_sdk/client.py:155-167 | the loop goes round again only after a `RateLimitError` (keeping `last_error`) or a non-timeout transport fault before the last attempt (remembering it), and always with a sleep length `time.sleep` accepts; an uncaught exception ends the call |
| `Client.Run` | python/x402_sdk/client.py:88-169 | a loop entered with `attempts` below `retry_attempts` runs at least one more iteration and stops by `retry_attempts`; one entered at or past it raises `last_error` or the retry-exhausted `NetworkError` at once |
| `Client.Continue` | python/x402_sdk/client.py:155-169 | after iteration `n`'s `try` block the call ends with `attempts` between `n` and `retry_attempts` |
| `Client.SendAndSettle` | python/x402_sdk/client.py:94-153 | one `try` block, run step by step, gives exactly `TryBlock`'s sends, payment and exit, including the uncaught exception `datetime.fromtimestamp` raises for an expiry it cannot convert to a local date |
| `Client.Recover` | python/x402_sdk/client.py:155-167 | the `except` clauses, tried in order, give exactly `Except`'s decision, including the uncaught exception `time.sleep` raises for a negative or too long sleep |
| `Client.Iterate` | python/x402_sdk/client.py:92-167 | one pass of the loop body either finishes the call with `Run`'s outcome and trace, or sleeps and leaves the rest of the call to `Run` from the next `attempts` and the returned `last_error` |
| `Client.RunOnce` | python/x402_sdk/client.py:91-167 | one iteration of `Run` is the `try` block followed, when it raised, by the `except` decision |
| `Client.Loop` | python/x402_sdk/client.py:88-169 | the `while` loop's outcome (a response, a raised `X402Error`, a raw `requests` exception, or an uncaught exception from `time.sleep` or `datetime.fromtimestamp`), sends, sleeps, payments and final `attempts` are exactly those of the specification `Run` |
| `Client.X402Client.constructor` | python/x402_sdk/client.py:38-63 | the configuration keeps the arguments with the base URL stripped of trailing '/'; the session headers are set; there is no keypair |
| `Client.X402Client.SetKeypair` | python/x402_sdk/client.py:65-67 | the keypair becomes the given one |
| `Client.X402Client.Request` | python/x402_sdk/client.py:69-169 | `request` behaves as `Run` on the merged headers and on `timeout or config.timeout` and `max_payment or config.max_payment_per_request` |
| `Client.X402Client.ApiRequest` | python/x402_sdk/client.py:258-266 | `_api_request` is `request` on the base URL, then `/api`, then the endpoint, with no extra headers, the configured timeout and ceiling, and auto-signing off |
| `ClientProperties.TryBlockShape` | python/x402_sdk/client.py:94-130 | an iteration sends once or twice, to the call's URL with its method and timeout, the first time with the call's headers, and pays exactly when it sends twice; the `try` body itself raises no `NetworkError` |
| `ClientProperties.TryBlockPayment` | python/x402_sdk/client.py:103-130 | a payment is for the challenge of that iteration, is allowed by every policy check, and its retry carries the original headers plus the signature and reference headers |
| `ClientProperties.TryBlockReport` | python/x402_sdk/client.py:135-153 | a returned response reports `payment_made` exactly when the iteration paid, and then reports that payment's amount, currency and signature |
| `ClientProperties.RunBounds` | python/x402_sdk/client.py:91-169 | `attempts` ends between its start and `retry_attempts`; each iteration adds at most two sends and one payment, and one sleep when it goes round again |
| `ClientProperties.PaymentsBoundedByAttempts` | python/x402_sdk/client.py:91-92 | payments ≤ iterations ≤ `retry_attempts` for every call |
| `ClientProperties.PaymentsWithinPolicy` | python/x402_sdk/client.py:103-118 | every payment answered a 402 with auto-signing on and a keypair set, was for the parsed requirement, was within the ceiling and not expired when checked, and used the executor's signature |
| `ClientProperties.SendsAsCalled` | python/x402_sdk/client.py:95-101 | every send of a call goes to its URL with its method and timeout |
| `ClientProperties.ProofSentAfterEachPayment` | python/x402_sdk/client.py:120-130 | the send right after each paid challenge carries the original headers plus `X-402-Payment-Signature` and `X-402-Payment-Reference` |
| `ClientProperties.NoAutoSignNoPayment` | python/x402_sdk/client.py:103 | with `auto_sign=False` nothing is ever paid |
| `ClientProperties.NoKeypairNoPayment` | python/x402_sdk/client.py:115-116 | without a keypair nothing is ever paid |
| `ClientProperties.ReportedPaymentIsLast` | python/x402_sdk/client.py:135-144 | a returned `payment_made` is the last payment of the call |
| `ClientProperties.ChallengeChecksInOrder` | python/x402_sdk/client.py:103-130 | the ceiling, then the expiry, then the keypair are checked, and a failed check raises its error before the executor is called or a second request is sent (for an expiry `datetime.fromtimestamp` cannot convert the error is the exception from `datetime.fromtimestamp`); when all pass, the executor's signature is paid and sent back with the challenge's reference |
| `ClientProperties.InvalidChallengeFails` | python/x402_sdk/client.py:104 | a 402 whose headers do not parse ends the call with `INVALID_402`, unpaid |
| `ClientProperties.UnpaidChallengeSurfaces402` | python/x402_sdk/client.py:146-147 | with `auto_sign=False` a 402 goes through the classifier and surfaces as an `X402Error` of status 402, unpaid |
| `ClientProperties.UnpaidSuccessReportsNoPayment` | python/x402_sdk/client.py:146-153 | an unpaid success returns the decoded body (or no data for an empty body) with no `payment_made` |
| `ClientProperties.TimeoutIsFatal` | python/x402_sdk/client.py:160-161 | a timeout, on the first request or the paid retry, ends the call at once with `NetworkError("Request timed out")`, without a sleep, keeping that iteration's sends and payment |
| `ClientProperties.TransportFaultBacksOff` | python/x402_sdk/client.py:162-167 | another transport fault, on the first request or the paid retry, sleeps `retry_delay * attempts` and retries remembering it; a sleep length `time.sleep` rejects ends the call with that exception; the last attempt raises a `NetworkError` wrapping the fault |
| `ClientProperties.RateLimitSleepsRetryAfter` | python/x402_sdk/client.py:155-157 | a `RateLimitError`, also one from the paid retry, sleeps exactly `retry_after`, uses up the iteration and leaves `last_error` unchanged; a `retry_after` that `time.sleep` rejects ends the call with that exception |
| `ClientProperties.OtherErrorsPropagate` | python/x402_sdk/client.py:158-159 | every other `X402Error` propagates without retry or sleep |
| `ClientProperties.ExhaustedLoop` | python/x402_sdk/client.py:169 | leaving the loop raises `last_error` if set, else `NetworkError("Max retry attempts exceeded")` |
| `ClientProperties.HistoryQueryRoundTrip` | python/x402_sdk/client.py:242-245 | the query string splits at '&' back into exactly the present parameters, in order, when the cursors hold no '&' |
| `ClientScenarios.TransientFaultRecovered` | python/x402_sdk/client.py:162-165 | a dropped connection, then a success, with three attempts: one sleep of 1.0 and the success returned |
| `ClientScenarios.TransientFaultsExhausted` | python/x402_sdk/client.py:162-167 | two dropped connections with two attempts: a `NetworkError` wrapping the fault |
| `ClientScenarios.RateLimitThenSuccess` | python/x402_sdk/client.py:155-157 | a 429 with Retry-After 2, then a success: one sleep of 2.0 and the success returned |
| `ClientScenarios.RateLimitedPaidRetryPaysTwice` | python/x402_sdk/client.py:132-157 | a 429 on the paid retry leads to a second challenge and a second payment in the same call |
| `ClientScenarios.FaultThenRateLimitRaisesRaw` | python/x402_sdk/client.py:169 | a dropped connection, then a 429 on the last attempt, raises the raw `requests` exception |
| `ClientScenarios.EmptyPaidBodyPaysAgain` | python/x402_sdk/client.py:135-136 | an empty body on the paid retry fails JSON decoding, is retried, and the challenge is paid again |
| `ClientScenarios.NegativeAmountAccepted` | python/x402_sdk/client.py:279 | a negative amount passes the parser |
| `ClientScenarios.PaidAtExpiryInstant` | python/x402_sdk/client.py:109 | a challenge read exactly at its expiry second is still paid |
| `ClientScenarios.PaidRetryTimeoutIsFatal` | python/x402_sdk/client.py:120-161 | a timeout on the paid retry ends the call with `NetworkError("Request timed out")` after one payment and two sends, without a sleep |
| `ClientScenarios.NegativeRetryAfterRaises` | python/x402_sdk/client.py:155-156 | a 429 with `Retry-After: -1` ends the call with the exception `time.sleep` raises, without a retry |
| `ClientScenarios.NegativeRetryDelayRaises` | python/x402_sdk/client.py:162-165 | a dropped connection with `retry_delay = -1.0` ends the call with the exception `time.sleep` raises, although a later send would succeed |
| `ClientScenarios.OutOfRangeExpiryRaises` | python/x402_sdk/client.py:109-113 | an expired challenge whose `expires` lies before the year 1 ends the call with the exception `datetime.fromtimestamp` raises, unpaid, after one send |
| `ClientScenarios.FirstDayOfYearOneRaises` | python/x402_sdk/client.py:109-113 | an expired challenge whose `expires` lies in the first day of year 1 ends the call with the exception `datetime.fromtimestamp` raises, while one a day later gives `PaymentExpiredError` |
| `Middleware.Trunc` | python/x402_sdk/middleware.py:119 | `int(x)` truncates toward zero |
| `Middleware.GenerateReference` | python/x402_sdk/middleware.py:205-211 | the reference starts with "pay_" and ends with the random part; for a non-negative clock, everything after "pay_" is lower-case letters and digits |
| `Middleware.ReferenceStore.constructor` | python/x402_sdk/middleware.py:17 | the consumed set starts empty |
| `Middleware.X402Middleware.constructor` | python/x402_sdk/middleware.py:23-36 | the middleware keeps its recipient, its verification mode and which hooks are set, and guards with the given shared store |
| `Middleware.IssueChallenge` | python/x402_sdk/middleware.py:118-142 | the challenge's `X-402-*` headers mirror its JSON payment (version 1.0, amount, currency, recipient, reference, expiry, no network); the amount and currency are the route's, the reference starts with "pay_", and `expires` is `int(now) + expires_in` |
| `Middleware.Handle` | python/x402_sdk/middleware.py:50-142 | the consumed set only grows, and only by the request's own reference; a challenge is issued exactly when a proof header is missing, and then with no outside call and no change to the set |
| `Middleware.X402Middleware.Wrapped` | python/x402_sdk/middleware.py:50-142 | one request through the view gives exactly `Handle`'s reply, calls and new set; the set only grows |
| `Middleware.X402Middleware.Verify` | python/x402_sdk/middleware.py:63-106 | the `try` block after the verifier call gives exactly `Handle`'s reply, calls and new set |
| `MiddlewareProperties.ConsumesExactlyOnAdmission` | python/x402_sdk/middleware.py:56-116 | the set changes exactly when the request passes the replay guard and verification (or verification is off), and then gains just its reference |
| `MiddlewareProperties.ReplayRejected` | python/x402_sdk/middleware.py:56-61 | a signature plus a consumed reference gets 402 `REPLAY_ATTACK`, with no verifier call, no hook and no change |
| `MiddlewareProperties.NotVerifiedNotConsumed` | python/x402_sdk/middleware.py:73-79 | an unverified payment gets 402 `VERIFICATION_FAILED`, `on_payment_failed` is told, and the reference is not consumed |
| `MiddlewareProperties.VerifierErrorNotConsumed` | python/x402_sdk/middleware.py:99-106 | a verifier exception gets 402 `VERIFICATION_ERROR` with its message; the handler does not run and nothing is consumed |
| `MiddlewareProperties.VerifiedAdmission` | python/x402_sdk/middleware.py:81-97 | after verification the reference is consumed before the hook and the handler run; the payment info takes amount, currency and sender from the transaction; the handler's response is returned |
| `MiddlewareProperties.LateErrorKeepsConsumed` | python/x402_sdk/middleware.py:81-106 | an exception from `on_payment_received` or the handler gives `VERIFICATION_ERROR` and the reference stays consumed |
| `MiddlewareProperties.UnverifiedAdmission` | python/x402_sdk/middleware.py:107-116 | with `verify_payments=False` the proof headers alone admit: no verifier call, the reference consumed, the route's amount and currency used; a handler exception propagates |
| `MiddlewareProperties.ChallengeIssued` | python/x402_sdk/middleware.py:118-142 | a missing proof header gives a challenge with a fresh reference and `expires = int(now) + expires_in`, and the route's or else the middleware's recipient; its headers mirror the JSON payment; the set is untouched |
| `MiddlewareProperties.ReferenceEncodesTime` | python/x402_sdk/middleware.py:205-211 | a reference is "pay_", then hex digits that decode to `int(now)`, then the twelve random characters |
| `Middleware.StandaloneHandle` | python/x402_sdk/middleware.py:163-202 | with a signature header the handler's response or exception is the reply, with no payment info; without one the reply is a challenge with no memo key and no recipient header, whose reference header mirrors the body's "pay_" reference |
| `MiddlewareProperties.StandaloneAdmitsAnySignature` | python/x402_sdk/middleware.py:176-179 | the standalone decorator runs the handler for any request with a signature header, without consulting the set |
| `MiddlewareProperties.StandaloneChallengeOmitsRecipient` | python/x402_sdk/middleware.py:181-199 | the standalone challenge names a recipient (or "RECIPIENT_ADDRESS") in its body but sends no `X-402-Recipient` header, memo or instructions |
| `MiddlewareProperties.SetOnlyGrows` | python/x402_sdk/middleware.py:17 | over any sequence of requests to any views and middleware instances, the consumed set never loses a reference |
| `MiddlewareProperties.ConsumedRejectedForever` | python/x402_sdk/middleware.py:56-61 | once consumed, a reference is rejected as a replay in every later request bearing it with a signature, without a verifier call |
| `MiddlewareProperties.ConsumedAtMostOnce` | python/x402_sdk/middleware.py:81 | two requests that consume a reference carry different references |
| `Handshake.ChallengeParsesBack` | python/x402_sdk/middleware.py:135-140 | the client parser recovers amount, currency, recipient, reference and expiry from the middleware's challenge headers; it rejects them with `INVALID_402` exactly when the amount is zero or the recipient empty |
| `Handshake.StandaloneChallengeRejected` | python/x402_sdk/middleware.py:193-197 | the client parser always rejects the standalone challenge with `INVALID_402` |
| `Handshake.LegacyReadsChallenges` | python/x402_sdk.py:67-79 | the legacy `handle_402` returns the middleware challenge's amount and recipient when both are set, and rejects every standalone challenge |
| `Handshake.PaidRetryCarriesChallengeReference` | python/x402_sdk/client.py:103-122 | a client answering a middleware challenge within its ceiling and before expiry pays that requirement; its retry's signature and reference headers are the executor's output and the challenge's reference |
| `Handshake.PaidRetryAdmittedOnce` | python/x402_sdk/middleware.py:50-97 | the guard admits that retry once when the API verifies it and `on_payment_received`, if set, returns normally, and rejects the same headers afterwards as a replay |
| `Wallet.PatternMatchesExactly` | python/x402_sdk/wallet.py:99-100 | `re.match` of `^[base58]+$` accepts exactly the non-empty all-base58 strings and those followed by one final newline |
| `Wallet.IsValidSolanaAddress` | python/x402_sdk/wallet.py:93-100 | true exactly for strings of 32 to 44 characters that the pattern matches; never for non-strings or the empty string |
| `Wallet.IsValidSolanaAddressStrict` | python/x402_sdk/wallet.py:93-100 | the intended check: strings of 32 to 44 characters, every one in base58 |
| `Wallet.StrictExcludesAmbiguousChars` | python/x402_sdk/wallet.py:99 | a valid address holds no '0', 'I', 'O' or 'l' |
| `Wallet.AsWrittenVersusStrict` | python/x402_sdk/wallet.py:99-100 | the written check accepts all the intended one does, and beyond that only strings ending in a newline after base58 characters |
| `Wallet.TrailingNewlineAccepted` | python/x402_sdk/wallet.py:99-100 | thirty-two '1's and a newline pass the written check but not the intended one |
| `Wallet.PyPrefix` | python/x402_sdk/wallet.py:107 | Python `s[:n]`, with negative and out-of-range bounds |
| `Wallet.PySuffix` | python/x402_sdk/wallet.py:107 | Python `s[start:]`, with negative and out-of-range bounds |
| `Wallet.ShortenAddress` | python/x402_sdk/wallet.py:103-107 | "" for "", the first and last `min(chars, len)` characters around "..." for `chars > 0`, "..." plus the whole address for `chars == 0` (`a[-0:]`), and Python's slices for negative `chars` |
| `Wallet.ShortenedLength` | python/x402_sdk/wallet.py:107 | an address longer than `2*chars` becomes `2*chars + 3` characters with its ends kept |
| `Wallet.ShortAddressRepeated` | python/x402_sdk/wallet.py:107 | an address no longer than `chars` appears whole on both sides of "..." |
| `LegacySdk.Handle402` | python/x402_sdk.py:57-79 | a non-402 status is a `ValueError`; an absent or zero amount or an absent or empty recipient is a `ValueError`; otherwise exactly `{amount, recipient}`, with no reference required |
| `LegacySdk.LegacyClient.constructor` | python/x402_sdk.py:13-27 | the base URL is stripped of trailing '/'; the session carries the bearer key and JSON content type |
| `LegacySdk.CreateClient` | python/x402_sdk.py:82-96 | `base_url or` the default, then normalised |

## Left out

- **The HTTP transport.** This covers `requests.Session`, the request body (`json=body if body else None`) and the session's own header merging. A send is the transport function's answer. `dict(self.session.headers)` also copies the default headers `requests` puts on every session (`User-Agent`, `Accept-Encoding`, `Accept`, `Connection`); the model's session map holds only the three headers the constructor sets, so those defaults are absent from the modelled sends.
- **The clock and sleeping.** `time.time()` is the clock function of `Env`. For the middleware it is the `now` of a request. The two clock readings of a middleware challenge (one for the reference, one for `expires`) are taken as one instant. `time.sleep` is recorded, not performed.
- **Randomness.** The twelve random characters of a reference are the request's `suffix`.
- **`_execute_payment`.** It is a simulated signature. The executor is a function of the requirement.
- **Text-to-number decoding of header values.** This covers `float(...)` and `int(...)` on `X-402-Amount`, `X-402-Expires` and `Retry-After`, and `float`/`int` on the legacy headers. A malformed value raises a `ValueError` that `request`'s `except` clauses do not catch. The model receives already decoded values, and the middleware's `str(amount)` is assumed to decode back to the amount.
- **JSON details.** A `null` value in a JSON body is treated like an absent key. A JSON body that is not an object, on which `.get` would fail, is not modelled.
- **Error messages.** The f-string messages of the error subclasses, which contain formatted floats, are not modelled. `PaymentExpiredError`'s `datetime` is the integer timestamp.
- **`datetime.fromtimestamp` and `time.sleep` limits.** The timestamp is accepted when its local date, the timestamp plus the `Env`'s UTC offset, falls in the years 1 to 9999, and the local date one day earlier, which the interpreter also converts when it probes for a fold, is not before year 1. Platform limits below that (a C `time_t` or `localtime` that refuses some timestamps, such as negative ones on Windows) and which exception class is raised (`ValueError`, `OverflowError`, `OSError`) are not modelled. `time.sleep` is accepted for lengths from 0 up to 2^63 nanoseconds, compared with exact real arithmetic rather than after float rounding.
- **`X402Response.headers` and `PaymentInfo.verified_at`.** The response headers are taken as given, and the `verified_at` timestamp is not modelled.
- **Python truthiness of other values.** The keypair's truthiness is modelled as "set or not".
- **Hooks and request attributes.** `on_payment_failed` is assumed to return normally; the code would call it a second time from the `except` clause if it raised. The `request.x402_payment` attribute is the payment info carried by the `Admitted` reply. `get_payment_info`, `is_paid` and `create_x402_middleware` are not part of this model.
- **The middleware's own `X402Client`.** The `verify` HTTP call it makes is the request's `verification` outcome. The middleware's `api_key` and `base_url` are therefore not kept.
- **Concurrency.** Concurrent access to the shared reference set is left out: the code has no locking, and requests are modelled one after another.
- **API wrappers.** `verify`, `create_payment_request`, `get_balance`, `get_transaction`, the decoding of the transaction-history response, and the legacy `verify` are JSON field copying over I/O and are not part of this model.
- **Wallet extras.** The `X402Wallet` mock methods and the lamport/USDC float conversions are not part of this model.

## Findings

| source | as written | input that shows it | evidently intended | confidence | as-written member | corrected member |
|---|---|---|---|---|---|---|
| python/x402_sdk/wallet.py:99-100 | `re.match(r'^[1-9A-HJ-NP-Za-km-z]+$', address)`: Python's `$` also matches just before a final newline | thirty-two '1' characters followed by "\n" (33 characters) is reported valid | only strings of 32 to 44 base58 characters are valid (`fullmatch` or `\Z`) | not executed; high — it follows from the documented semantics of `$` | `Wallet.TrailingNewlineAccepted` | `Wallet.IsValidSolanaAddressStrict` |
