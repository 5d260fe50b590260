/**
 * Concrete runs of `X402Client.request` over scripted transports: what the
 * retry and payment loop does after a dropped connection, a rate limit, a
 * timeout on the paid retry, a paid retry that is rate-limited or has an
 * empty body (a second payment), a fault followed by a rate limit (a raw
 * `requests` exception), and the standard-library exceptions that no
 * `except` clause catches.
 */
module ClientScenarios {
  import opened Common
  import opened Errors
  import opened Client

  const NoPaymentHeaders := PaymentHeaders(None, None, None, None, None, None, None)
  const ChallengeHeaders := PaymentHeaders(Some("1.0"), Some(0.05), Some("SOL"), Some("Recipient1"), Some("pay_1"),
                                           Some(100), Some("mainnet-beta"))

  /** A 402 challenge for 0.05 SOL, expiring at second 100. */
  const Challenge := Response(402, map[], ChallengeHeaders, None, NoContent)
  /** A 200 with the JSON body `{}`. */
  const Ok := Response(200, map[], NoPaymentHeaders, None, Json(EmptyObject))
  /** A 200 with an empty body. */
  const OkEmpty := Response(200, map[], NoPaymentHeaders, None, NoContent)
  /** A 429 asking to wait two seconds. */
  const TooMany := Response(429, map[], NoPaymentHeaders, Some(2), NoContent)
  const Reset := ConnectionFailed("connection reset")

  /** A call with auto-signing on, a keypair set, a 0.1 ceiling and a one-second retry delay. */
  function Agent(retryAttempts: int): Call {
    Call("https://api.x402agent.tech/data", "GET", map[], 30, 0.1, true, true, retryAttempts, 1.0)
  }

  /** The transport answers the k-th send with `replies[k]` (and times out after the script); the clock reads 0, in UTC. */
  function Scripted(replies: seq<SendResult>): Env {
    Env(k => if 0 <= k < |replies| then replies[k] else Raise(TimedOut), k => 0.0, req => "sig", t => 0)
  }

  /** A dropped connection is retried after `retry_delay * 1` and the retry succeeds. */
  lemma TransientFaultRecovered()
    ensures var r := Run(Agent(3), Scripted([Raise(Reset), Reply(Ok)]), 0, 0, None);
      && r.outcome == Returned(X402Response(Some(EmptyObject), 200, map[], None))
      && r.trace.sleeps == [1.0] && |r.trace.sent| == 2 && r.iterations == 2
  {
    var call, env := Agent(3), Scripted([Raise(Reset), Reply(Ok)]);
    assert TryBlock(call, env, 0).exit == Raises(RaisedFault(Reset));
    assert TryBlock(call, env, 1).exit == Returns(X402Response(Some(EmptyObject), 200, map[], None));
  }

  /** On the last attempt a dropped connection fails with a `NetworkError` wrapping it. */
  lemma TransientFaultsExhausted()
    ensures var r := Run(Agent(2), Scripted([Raise(Reset), Raise(Reset)]), 0, 0, None);
      && r.outcome == Failed(Network("Network request failed", Some(Reset)))
      && r.trace.sleeps == [1.0] && r.trace.payments == []
  {
    var call, env := Agent(2), Scripted([Raise(Reset), Raise(Reset)]);
    assert TryBlock(call, env, 0).exit == Raises(RaisedFault(Reset));
    assert TryBlock(call, env, 1).exit == Raises(RaisedFault(Reset));
  }

  /** A 429 sleeps its `Retry-After` and the next attempt succeeds. */
  lemma RateLimitThenSuccess()
    ensures var r := Run(Agent(3), Scripted([Reply(TooMany), Reply(Ok)]), 0, 0, None);
      && r.outcome.Returned? && r.trace.sleeps == [2.0] && r.trace.payments == []
  {
    var call, env := Agent(3), Scripted([Reply(TooMany), Reply(Ok)]);
    assert TryBlock(call, env, 0).exit == Raises(RaisedError(RateLimited(2, 0)));
    assert TryBlock(call, env, 1).exit.Returns?;
  }

  /**
   * A 429 on the paid retry sends the loop back to a fresh first request,
   * which draws a new challenge that is paid again: two payments for one call.
   */
  lemma RateLimitedPaidRetryPaysTwice()
    ensures var r := Run(Agent(3), Scripted([Reply(Challenge), Reply(TooMany), Reply(Challenge), Reply(Ok)]), 0, 0, None);
      && r.outcome.Returned? && r.outcome.response.paymentMade == Some(PaymentMade(0.05, "SOL", "sig"))
      && |r.trace.payments| == 2 && r.trace.sleeps == [2.0] && |r.trace.sent| == 4
  {
    var call, env := Agent(3), Scripted([Reply(Challenge), Reply(TooMany), Reply(Challenge), Reply(Ok)]);
    assert ParseRequirement(ChallengeHeaders).Success?;
    var t0 := TryBlock(call, env, 0);
    assert t0.exit == Raises(RaisedError(RateLimited(2, 0))) && |t0.sent| == 2 && |t0.paid| == 1;
    var t1 := TryBlock(call, env, 2);
    assert t1.exit.Returns? && |t1.sent| == 2 && |t1.paid| == 1;
  }

  /**
   * A dropped connection followed by a 429 on the last attempt leaves the
   * loop with `last_error` set, so the call raises the raw `requests`
   * exception rather than an `X402Error`.
   */
  lemma FaultThenRateLimitRaisesRaw()
    ensures var r := Run(Agent(2), Scripted([Raise(Reset), Reply(TooMany)]), 0, 0, None);
      && r.outcome == FailedRaw(Reset) && r.trace.sleeps == [1.0, 2.0]
  {
    var call, env := Agent(2), Scripted([Raise(Reset), Reply(TooMany)]);
    assert TryBlock(call, env, 0).exit == Raises(RaisedFault(Reset));
    assert TryBlock(call, env, 1).exit == Raises(RaisedError(RateLimited(2, 0)));
  }

  /**
   * A paid retry answered with 200 and an empty body fails to decode as
   * JSON, which is retried like a dropped connection: the challenge is
   * paid a second time.
   */
  lemma EmptyPaidBodyPaysAgain()
    ensures var r := Run(Agent(2), Scripted([Reply(Challenge), Reply(OkEmpty), Reply(Challenge), Reply(Ok)]), 0, 0, None);
      && r.outcome.Returned? && |r.trace.payments| == 2 && r.trace.sleeps == [1.0]
  {
    var call, env := Agent(2), Scripted([Reply(Challenge), Reply(OkEmpty), Reply(Challenge), Reply(Ok)]);
    assert ParseRequirement(ChallengeHeaders).Success?;
    var t0 := TryBlock(call, env, 0);
    assert t0.exit == Raises(RaisedFault(InvalidJson)) && |t0.sent| == 2 && |t0.paid| == 1;
    var t1 := TryBlock(call, env, 2);
    assert t1.exit.Returns? && |t1.sent| == 2 && |t1.paid| == 1;
  }

  /** The parser rejects only a zero amount: a negative one is accepted, and is within any ceiling. */
  lemma NegativeAmountAccepted()
    ensures var h := ChallengeHeaders.(amount := Some(-1.0));
      ParseRequirement(h) == Success(Requirement(-1.0, "SOL", "Recipient1", "pay_1", 100, Some("mainnet-beta")))
  {
  }

  /** A challenge is expired only when the clock is strictly past `expires`: at the very second it is paid. */
  lemma PaidAtExpiryInstant()
    ensures var env := Scripted([Reply(Challenge), Reply(Ok)]).(clock := k => 100.0);
      var r := Run(Agent(3), env, 0, 0, None);
      && r.outcome.Returned? && |r.trace.payments| == 1
  {
    var env := Scripted([Reply(Challenge), Reply(Ok)]).(clock := k => 100.0);
    assert ParseRequirement(ChallengeHeaders).Success?;
    assert TryBlock(Agent(3), env, 0).exit.Returns?;
  }

  /** A timeout on the paid retry ends the call at once: the payment stays made and nothing is retried. */
  lemma PaidRetryTimeoutIsFatal()
    ensures var r := Run(Agent(3), Scripted([Reply(Challenge), Raise(TimedOut)]), 0, 0, None);
      && r.outcome == Failed(Network("Request timed out", None))
      && |r.trace.payments| == 1 && |r.trace.sent| == 2 && r.trace.sleeps == [] && r.iterations == 1
  {
    var call, env := Agent(3), Scripted([Reply(Challenge), Raise(TimedOut)]);
    assert ParseRequirement(ChallengeHeaders).Success?;
    var t := TryBlock(call, env, 0);
    assert t.exit == Raises(RaisedFault(TimedOut)) && |t.sent| == 2 && |t.paid| == 1;
  }

  /** `Retry-After: -1` makes `time.sleep` raise: the call ends with that exception, not a retry. */
  lemma NegativeRetryAfterRaises()
    ensures var r := Run(Agent(3), Scripted([Reply(TooMany.(retryAfter := Some(-1))), Reply(Ok)]), 0, 0, None);
      && r.outcome == Aborted(SleepRejected) && r.trace.sleeps == [] && |r.trace.sent| == 1
  {
    var call, env := Agent(3), Scripted([Reply(TooMany.(retryAfter := Some(-1))), Reply(Ok)]);
    assert TryBlock(call, env, 0).exit == Raises(RaisedError(RateLimited(-1, 0)));
  }

  /** A negative `retry_delay` makes the backoff sleep raise after the first dropped connection. */
  lemma NegativeRetryDelayRaises()
    ensures var r := Run(Agent(3).(retryDelay := -1.0), Scripted([Raise(Reset), Reply(Ok)]), 0, 0, None);
      && r.outcome == Aborted(SleepRejected) && r.trace.sleeps == [] && |r.trace.sent| == 1
  {
    var call, env := Agent(3).(retryDelay := -1.0), Scripted([Raise(Reset), Reply(Ok)]);
    assert TryBlock(call, env, 0).exit == Raises(RaisedFault(Reset));
  }

  /**
   * An expired challenge whose `X-402-Expires` lies before year 1 makes
   * `datetime.fromtimestamp` raise instead of `PaymentExpiredError`.
   */
  lemma OutOfRangeExpiryRaises()
    ensures var h := ChallengeHeaders.(expires := Some(-100000000000));
      var r := Run(Agent(3), Scripted([Reply(Challenge.(payment := h))]), 0, 0, None);
      && r.outcome == Aborted(TimestampOutOfRange) && r.trace.payments == [] && |r.trace.sent| == 1
  {
    var h := ChallengeHeaders.(expires := Some(-100000000000));
    var call, env := Agent(3), Scripted([Reply(Challenge.(payment := h))]);
    assert ParseRequirement(h).Success?;
    assert TryBlock(call, env, 0).exit == Raises(RaisedUncaught(TimestampOutOfRange));
  }

  /**
   * `datetime.fromtimestamp` also converts the local time one day earlier to
   * detect a fold, so an expiry in the first day of year 1 raises as well,
   * while one a full day later gives `PaymentExpiredError`.
   */
  lemma FirstDayOfYearOneRaises()
    ensures var h := ChallengeHeaders.(expires := Some(FirstDatetimeSecond + 800));
      var r := Run(Agent(3), Scripted([Reply(Challenge.(payment := h))]), 0, 0, None);
      r.outcome == Aborted(TimestampOutOfRange) && r.trace.payments == []
    ensures var h := ChallengeHeaders.(expires := Some(FirstDatetimeSecond + MaxFoldSeconds));
      var r := Run(Agent(3), Scripted([Reply(Challenge.(payment := h))]), 0, 0, None);
      r.outcome == Failed(PaymentExpired("pay_1", FirstDatetimeSecond + MaxFoldSeconds)) && r.trace.payments == []
  {
    var call := Agent(3);
    var early := ChallengeHeaders.(expires := Some(FirstDatetimeSecond + 800));
    var env := Scripted([Reply(Challenge.(payment := early))]);
    assert ParseRequirement(early).Success?;
    assert TryBlock(call, env, 0).exit == Raises(RaisedUncaught(TimestampOutOfRange));
    var later := ChallengeHeaders.(expires := Some(FirstDatetimeSecond + MaxFoldSeconds));
    var env' := Scripted([Reply(Challenge.(payment := later))]);
    assert ParseRequirement(later).Success?;
    assert TryBlock(call, env', 0).exit
        == Raises(RaisedError(PaymentExpired("pay_1", FirstDatetimeSecond + MaxFoldSeconds)));
  }
}
