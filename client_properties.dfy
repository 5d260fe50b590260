/**
 * What `X402Client.request` guarantees, proved of its specification `Run`
 * (and so, through `Client.Loop`, of the method itself).
 */
module ClientProperties {
  import opened Common
  import opened Errors
  import opened Client
  import Text

  /** The loop ran out of iterations rather than returning or raising inside it (line 169). */
  predicate LeftLoop(o: Outcome) {
    o.FailedRaw? || o == Failed(Network(MaxRetryMessage, None))
  }

  /** What `payment_made` reports for a payment. */
  function Made(p: Payment): PaymentMade {
    PaymentMade(p.requirement.amount, p.requirement.currency, p.signature)
  }

  /**
   * A payment the loop may make: the challenge was a 402 reply with
   * auto-signing on and a keypair set, it parsed to the requirement paid,
   * the amount was within the ceiling, the challenge had not expired when
   * checked, and the signature is the executor's.
   */
  ghost predicate PaidWithinPolicy(call: Call, env: Env, p: Payment) {
    && call.autoSign && call.keypaired
    && env.transport(p.challengeIndex).Reply?
    && env.transport(p.challengeIndex).response.status == 402
    && ParseRequirement(env.transport(p.challengeIndex).response.payment) == Success(p.requirement)
    && p.requirement.amount <= call.ceiling
    && env.clock(p.challengeIndex) <= p.requirement.expires as real
    && p.signature == env.executor(p.requirement)
  }

  /** Every send of a call goes to the call's URL with its method and timeout. */
  ghost predicate SentAsCalled(call: Call, sent: seq<Sent>) {
    forall i :: 0 <= i < |sent| ==>
      sent[i].url == call.url && sent[i].httpMethod == call.httpMethod && sent[i].timeout == call.timeout
  }

  /** Each payment's paid retry (the send right after its challenge) carries the proof headers. */
  ghost predicate ProofFollowsChallenge(call: Call, k: nat, sent: seq<Sent>, payments: seq<Payment>) {
    forall i :: 0 <= i < |payments| ==>
      && k <= payments[i].challengeIndex
      && payments[i].challengeIndex + 1 - k < |sent|
      && sent[payments[i].challengeIndex + 1 - k].headers
         == ProofHeaders(call.headers, payments[i].signature, payments[i].requirement.reference)
  }

  /** Whether iteration `a + 1`, whose `try` block gave `t`, goes round again. */
  predicate GoesAgain(call: Call, a: int, t: TryResult) {
    t.exit.Raises? && Except(call, a + 1, t.exit.raised).Again?
  }

  /** `last_error` after iteration `a + 1` went round again. */
  function LastErrorAfter(call: Call, a: int, t: TryResult, le: Option<Fault>): Option<Fault>
    requires GoesAgain(call, a, t)
  {
    var nx := Except(call, a + 1, t.exit.raised);
    if nx.lastError.Some? then nx.lastError else le
  }

  /** One iteration of the loop, unfolded. */
  lemma RunStep(call: Call, env: Env, a: int, k: nat, le: Option<Fault>, t: TryResult)
    requires a < call.retryAttempts && t == TryBlock(call, env, k)
    ensures var r := Run(call, env, a, k, le);
      if GoesAgain(call, a, t) then
        r == Prepend(Trace(t.sent, [Except(call, a + 1, t.exit.raised).delay], t.paid),
                     Run(call, env, a + 1, k + |t.sent|, LastErrorAfter(call, a, t, le)))
      else
        && r.trace == Trace(t.sent, [], t.paid) && r.iterations == a + 1
        && r.outcome == (if t.exit.Returns? then Returned(t.exit.response) else Except(call, a + 1, t.exit.raised).outcome)
  {
    assert Run(call, env, a, k, le) == Continue(call, env, a + 1, k, le, t);
  }

  /** What one `try` block can do: one or two sends, a payment exactly when there are two. */
  lemma TryBlockShape(call: Call, env: Env, k: nat)
    ensures var t := TryBlock(call, env, k);
      && 1 <= |t.sent| <= 2 && |t.paid| == |t.sent| - 1
      && t.sent[0].headers == call.headers
      && SentAsCalled(call, t.sent)
      && (t.exit.Raises? && t.exit.raised.RaisedError? ==> !t.exit.raised.error.Network?)
  {
  }

  /** The payment a `try` block makes is within policy and its retry carries the proof. */
  lemma TryBlockPayment(call: Call, env: Env, k: nat)
    ensures var t := TryBlock(call, env, k);
      |t.paid| > 0 ==>
        && |t.paid| == 1 && |t.sent| == 2
        && t.paid[0].challengeIndex == k
        && PaidWithinPolicy(call, env, t.paid[0])
        && t.sent[1].headers == ProofHeaders(call.headers, t.paid[0].signature, t.paid[0].requirement.reference)
  {
  }

  /** A `try` block that returns reports a payment exactly when it made one. */
  lemma TryBlockReport(call: Call, env: Env, k: nat)
    ensures var t := TryBlock(call, env, k);
      t.exit.Returns? ==>
        && (t.exit.response.paymentMade.Some? <==> t.paid != [])
        && (t.paid != [] ==> t.exit.response.paymentMade == Some(Made(t.paid[0])))
  {
  }

  /**
   * Iterations, sends, sleeps and payments: at most `retry_attempts`
   * iterations, at most two sends and one payment per iteration, and one
   * sleep per iteration that goes round again.
   */
  lemma {:induction false} RunBounds(call: Call, env: Env, a: int, k: nat, le: Option<Fault>)
    requires 0 <= a
    decreases call.retryAttempts - a
    ensures var r := Run(call, env, a, k, le);
      && a <= r.iterations <= Max(a, call.retryAttempts)
      && |r.trace.payments| <= r.iterations - a
      && |r.trace.sent| <= 2 * (r.iterations - a)
      && (LeftLoop(r.outcome) ==> r.iterations == Max(a, call.retryAttempts) && |r.trace.sleeps| == r.iterations - a)
      && (!LeftLoop(r.outcome) ==> a < r.iterations && |r.trace.sleeps| == r.iterations - a - 1)
  {
    if a < call.retryAttempts {
      var t := TryBlock(call, env, k);
      TryBlockShape(call, env, k);
      RunStep(call, env, a, k, le, t);
      if t.exit.Raises? {
        var nx := Except(call, a + 1, t.exit.raised);
        if nx.Again? {
          RunBounds(call, env, a + 1, k + |t.sent|, LastErrorAfter(call, a, t, le));
        }
      }
    }
  }

  /** The headline bound: payments <= iterations <= retry_attempts. */
  lemma PaymentsBoundedByAttempts(call: Call, env: Env)
    ensures var r := Run(call, env, 0, 0, None);
      |r.trace.payments| <= r.iterations <= Max(0, call.retryAttempts)
  {
    RunBounds(call, env, 0, 0, None);
  }

  /** Every payment of a call was allowed by the policy checks. */
  lemma {:induction false} PaymentsWithinPolicy(call: Call, env: Env, a: int, k: nat, le: Option<Fault>)
    ensures var r := Run(call, env, a, k, le);
      && (forall p :: p in r.trace.payments ==> PaidWithinPolicy(call, env, p))
      && (r.trace.payments != [] ==> call.autoSign && call.keypaired)
    decreases call.retryAttempts - a
  {
    if a < call.retryAttempts {
      var t := TryBlock(call, env, k);
      TryBlockPayment(call, env, k);
      RunStep(call, env, a, k, le, t);
      if t.exit.Raises? {
        var nx := Except(call, a + 1, t.exit.raised);
        if nx.Again? {
          PaymentsWithinPolicy(call, env, a + 1, k + |t.sent|, LastErrorAfter(call, a, t, le));
        }
      }
    }
  }

  /** Every send of a call goes to its URL with its method and timeout. */
  lemma {:induction false} SendsAsCalled(call: Call, env: Env, a: int, k: nat, le: Option<Fault>)
    ensures SentAsCalled(call, Run(call, env, a, k, le).trace.sent)
    decreases call.retryAttempts - a
  {
    if a < call.retryAttempts {
      var t := TryBlock(call, env, k);
      TryBlockShape(call, env, k);
      RunStep(call, env, a, k, le, t);
      if t.exit.Raises? {
        var nx := Except(call, a + 1, t.exit.raised);
        if nx.Again? {
          var rest := Run(call, env, a + 1, k + |t.sent|, LastErrorAfter(call, a, t, le));
          SendsAsCalled(call, env, a + 1, k + |t.sent|, LastErrorAfter(call, a, t, le));
          assert Run(call, env, a, k, le).trace.sent == t.sent + rest.trace.sent;
        }
      }
    }
  }

  /** The send right after each paid challenge carries the executor's signature and the challenge's reference. */
  lemma {:induction false} ProofSentAfterEachPayment(call: Call, env: Env, a: int, k: nat, le: Option<Fault>)
    ensures var r := Run(call, env, a, k, le);
      ProofFollowsChallenge(call, k, r.trace.sent, r.trace.payments)
    decreases call.retryAttempts - a
  {
    if a < call.retryAttempts {
      var t := TryBlock(call, env, k);
      TryBlockPayment(call, env, k);
      RunStep(call, env, a, k, le, t);
      if t.exit.Raises? {
        var nx := Except(call, a + 1, t.exit.raised);
        if nx.Again? {
          var k' := k + |t.sent|;
          var le' := LastErrorAfter(call, a, t, le);
          var rest := Run(call, env, a + 1, k', le');
          ProofSentAfterEachPayment(call, env, a + 1, k', le');
          ProofFollowsChallengeAppend(call, k, t.sent, t.paid, rest.trace.sent, rest.trace.payments);
        }
      }
    }
  }

  /** Two stretches of a call, each with the proof after its payments, make one. */
  lemma ProofFollowsChallengeAppend(call: Call, k: nat, sent1: seq<Sent>, paid1: seq<Payment>,
                                    sent2: seq<Sent>, paid2: seq<Payment>)
    requires ProofFollowsChallenge(call, k, sent1, paid1)
    requires ProofFollowsChallenge(call, k + |sent1|, sent2, paid2)
    ensures ProofFollowsChallenge(call, k, sent1 + sent2, paid1 + paid2)
  {
    var sent, paid := sent1 + sent2, paid1 + paid2;
    forall i | 0 <= i < |paid|
      ensures k <= paid[i].challengeIndex && paid[i].challengeIndex + 1 - k < |sent|
      ensures sent[paid[i].challengeIndex + 1 - k].headers
              == ProofHeaders(call.headers, paid[i].signature, paid[i].requirement.reference)
    {
      if i >= |paid1| {
        var p := paid2[i - |paid1|];
        assert paid[i] == p;
        assert sent[p.challengeIndex + 1 - k] == sent2[p.challengeIndex + 1 - (k + |sent1|)];
      }
    }
  }

  /** With `auto_sign=False` nothing is ever paid. */
  lemma NoAutoSignNoPayment(call: Call, env: Env)
    requires !call.autoSign
    ensures Run(call, env, 0, 0, None).trace.payments == []
  {
    PaymentsWithinPolicy(call, env, 0, 0, None);
  }

  /** Without a keypair nothing is ever paid. */
  lemma NoKeypairNoPayment(call: Call, env: Env)
    requires !call.keypaired
    ensures Run(call, env, 0, 0, None).trace.payments == []
  {
    PaymentsWithinPolicy(call, env, 0, 0, None);
  }

  /**
   * A returned response reports a payment exactly when the last thing the
   * call did was pay, and then it reports that (the last) payment.
   */
  lemma {:induction false} ReportedPaymentIsLast(call: Call, env: Env, a: int, k: nat, le: Option<Fault>)
    ensures var r := Run(call, env, a, k, le);
      r.outcome.Returned? && r.outcome.response.paymentMade.Some? ==>
        r.trace.payments != [] && r.outcome.response.paymentMade.value == Made(r.trace.payments[|r.trace.payments| - 1])
    decreases call.retryAttempts - a
  {
    if a < call.retryAttempts {
      var t := TryBlock(call, env, k);
      TryBlockReport(call, env, k);
      RunStep(call, env, a, k, le, t);
      if t.exit.Raises? {
        var nx := Except(call, a + 1, t.exit.raised);
        if nx.Again? {
          var k' := k + |t.sent|;
          var rest := Run(call, env, a + 1, k', LastErrorAfter(call, a, t, le));
          ReportedPaymentIsLast(call, env, a + 1, k', LastErrorAfter(call, a, t, le));
          assert Run(call, env, a, k, le).trace.payments == t.paid + rest.trace.payments;
        }
      }
    }
  }

  /**
   * A 402 with auto-signing on: the ceiling, then the expiry, then the
   * keypair are checked, and a failed check raises before the executor is
   * called or a second request is sent; when all pass, the executor's
   * signature for the parsed requirement is paid and the paid retry carries
   * it with the challenge's reference.
   */
  lemma ChallengeChecksInOrder(call: Call, env: Env, a: int, k: nat, le: Option<Fault>, req: Requirement)
    requires a < call.retryAttempts && call.autoSign
    requires env.transport(k).Reply? && env.transport(k).response.status == 402
    requires ParseRequirement(env.transport(k).response.payment) == Success(req)
    ensures var r := Run(call, env, a, k, le);
      && (req.amount > call.ceiling ==>
            r.outcome == Failed(MaxPaymentExceeded(req.amount, call.ceiling)))
      && (req.amount <= call.ceiling && env.clock(k) > req.expires as real ==>
            r.outcome == if FromTimestampDefined(env, req.expires) then Failed(PaymentExpired(req.reference, req.expires))
                         else Aborted(TimestampOutOfRange))
      && (req.amount <= call.ceiling && env.clock(k) <= req.expires as real && !call.keypaired ==>
            r.outcome == Failed(NewError("Keypair required for automatic payments", "NO_KEYPAIR")))
      && (req.amount > call.ceiling || env.clock(k) > req.expires as real || !call.keypaired ==>
            |r.trace.sent| == 1 && r.trace.payments == [] && r.trace.sleeps == [] && r.iterations == a + 1)
      && (req.amount <= call.ceiling && env.clock(k) <= req.expires as real && call.keypaired ==>
            && |r.trace.sent| >= 2 && r.trace.payments != []
            && r.trace.payments[0] == Payment(k, req, env.executor(req))
            && r.trace.sent[1].headers == ProofHeaders(call.headers, env.executor(req), req.reference))
  {
    var t := TryBlock(call, env, k);
    RunStep(call, env, a, k, le, t);
  }

  /** A 402 whose payment headers do not parse ends the call with `INVALID_402`, unpaid. */
  lemma InvalidChallengeFails(call: Call, env: Env, a: int, k: nat, le: Option<Fault>)
    requires a < call.retryAttempts && call.autoSign
    requires env.transport(k).Reply? && env.transport(k).response.status == 402
    requires ParseRequirement(env.transport(k).response.payment).Failure?
    ensures var r := Run(call, env, a, k, le);
      && r.outcome == Failed(NewError(InvalidChallengeMessage, "INVALID_402"))
      && r.trace.payments == [] && |r.trace.sent| == 1
  {
    var t := TryBlock(call, env, k);
    RunStep(call, env, a, k, le, t);
  }

  /**
   * With `auto_sign=False` a 402 is not paid: it is classified like any
   * failed response and the call fails with an `X402Error` of status 402.
   */
  lemma UnpaidChallengeSurfaces402(call: Call, env: Env, a: int, k: nat, le: Option<Fault>)
    requires a < call.retryAttempts && !call.autoSign
    requires env.transport(k).Reply? && env.transport(k).response.status == 402
    ensures var r := Run(call, env, a, k, le);
      && r.outcome.Failed? && r.outcome.error.Generic? && Status(r.outcome.error) == Some(402)
      && r.outcome.error == ClassifyError(env.transport(k).response)
      && r.trace.payments == [] && |r.trace.sent| == 1
  {
    var t := TryBlock(call, env, k);
    RunStep(call, env, a, k, le, t);
  }

  /** An unpaid success returns the decoded body with no `payment_made`. */
  lemma UnpaidSuccessReportsNoPayment(call: Call, env: Env, a: int, k: nat, le: Option<Fault>)
    requires a < call.retryAttempts
    requires env.transport(k).Reply? && env.transport(k).response.status != 402
    requires IsOk(env.transport(k).response.status) && !env.transport(k).response.payload.Unparsable?
    ensures var r := Run(call, env, a, k, le);
      var resp := env.transport(k).response;
      && r.outcome.Returned? && r.outcome.response.paymentMade.None?
      && r.outcome.response.status == resp.status
      && r.outcome.response.data == (if resp.payload.Json? then Some(resp.payload.body) else None)
      && r.trace.payments == [] && |r.trace.sent| == 1
  {
    var t := TryBlock(call, env, k);
    RunStep(call, env, a, k, le, t);
  }

  /**
   * A timeout, on the first request or on the paid retry, ends the call at
   * once with a `NetworkError`: no sleep, no further iteration, and a
   * payment already made stays made.
   */
  lemma TimeoutIsFatal(call: Call, env: Env, a: int, k: nat, le: Option<Fault>, t: TryResult)
    requires a < call.retryAttempts && t == TryBlock(call, env, k)
    requires t.exit == Raises(RaisedFault(TimedOut))
    ensures var r := Run(call, env, a, k, le);
      && r.outcome == Failed(Network("Request timed out", None))
      && r.trace == Trace(t.sent, [], t.paid) && r.iterations == a + 1
  {
    RunStep(call, env, a, k, le, t);
  }

  /**
   * Any other transport fault, on the first request or on the paid retry,
   * sleeps `retry_delay * attempts` and goes round again remembering the
   * fault; on the last attempt it fails with a `NetworkError` wrapping the
   * fault, and a sleep length `time.sleep` rejects ends the call with that
   * uncaught exception.
   */
  lemma TransportFaultBacksOff(call: Call, env: Env, a: int, k: nat, le: Option<Fault>, t: TryResult, f: Fault)
    requires 0 <= a < call.retryAttempts && t == TryBlock(call, env, k)
    requires t.exit == Raises(RaisedFault(f)) && !f.TimedOut?
    ensures var r := Run(call, env, a, k, le);
      var delay := call.retryDelay * (a + 1) as real;
      && (a + 1 < call.retryAttempts && SleepAccepted(delay) ==>
            r == Prepend(Trace(t.sent, [delay], t.paid), Run(call, env, a + 1, k + |t.sent|, Some(f))))
      && (a + 1 < call.retryAttempts && !SleepAccepted(delay) ==>
            r.outcome == Aborted(SleepRejected) && r.trace == Trace(t.sent, [], t.paid))
      && (a + 1 == call.retryAttempts ==>
            r.outcome == Failed(Network("Network request failed", Some(f))) && r.trace == Trace(t.sent, [], t.paid))
  {
    RunStep(call, env, a, k, le, t);
    var delay := call.retryDelay * (a + 1) as real;
    if a + 1 < call.retryAttempts && SleepAccepted(delay) {
      assert Except(call, a + 1, t.exit.raised) == Again(delay, Some(f));
    }
  }

  /**
   * A `RateLimitError`, whether from the first request or the paid retry,
   * sleeps exactly `retry_after`, uses up the iteration and leaves
   * `last_error` as it was; a `retry_after` that `time.sleep` rejects
   * (negative, or too long) ends the call with that uncaught exception.
   */
  lemma RateLimitSleepsRetryAfter(call: Call, env: Env, a: int, k: nat, le: Option<Fault>, t: TryResult)
    requires a < call.retryAttempts && t == TryBlock(call, env, k)
    requires t.exit.Raises? && t.exit.raised.RaisedError? && t.exit.raised.error.RateLimited?
    ensures var r := Run(call, env, a, k, le);
      var wait := t.exit.raised.error.retryAfter as real;
      && (SleepAccepted(wait) ==> r == Prepend(Trace(t.sent, [wait], t.paid), Run(call, env, a + 1, k + |t.sent|, le)))
      && (!SleepAccepted(wait) ==>
            r.outcome == Aborted(SleepRejected) && r.trace == Trace(t.sent, [], t.paid) && r.iterations == a + 1)
  {
    RunStep(call, env, a, k, le, t);
  }

  /** Every other `X402Error` propagates at once, without a retry. */
  lemma OtherErrorsPropagate(call: Call, env: Env, a: int, k: nat, le: Option<Fault>, t: TryResult)
    requires a < call.retryAttempts && t == TryBlock(call, env, k)
    requires t.exit.Raises? && t.exit.raised.RaisedError? && !t.exit.raised.error.RateLimited?
    ensures var r := Run(call, env, a, k, le);
      r.outcome == Failed(t.exit.raised.error) && r.trace == Trace(t.sent, [], t.paid) && r.iterations == a + 1
  {
    RunStep(call, env, a, k, le, t);
  }

  /**
   * Leaving the loop raises the remembered transport fault when there is
   * one, and `NetworkError("Max retry attempts exceeded")` otherwise; with
   * `retry_attempts <= 0` nothing is sent at all.
   */
  lemma ExhaustedLoop(call: Call, env: Env, a: int, k: nat, le: Option<Fault>)
    requires call.retryAttempts <= a
    ensures var r := Run(call, env, a, k, le);
      && (le.Some? ==> r.outcome == FailedRaw(le.value))
      && (le.None? ==> r.outcome == Failed(Network(MaxRetryMessage, None)))
      && r.trace == Trace([], [], [])
  {
  }

  /**
   * The history query string splits back at '&' into exactly the present
   * parameters, in order, when the `before` and `after` cursors hold no '&'.
   */
  lemma HistoryQueryRoundTrip(limit: int, before: Option<string>, after: Option<string>)
    requires HistoryParams(limit, before, after) != []
    requires before.Some? ==> '&' !in before.value
    requires after.Some? ==> '&' !in after.value
    ensures Text.Split(Text.Join(HistoryParams(limit, before, after), '&'), '&') == HistoryParams(limit, before, after)
  {
    var ps := HistoryParams(limit, before, after);
    if limit != 0 {
      assert '&' !in Text.IntToDecimal(limit);
      assert '&' !in "limit=" + Text.IntToDecimal(limit);
    }
    assert forall i :: 0 <= i < |ps| ==> '&' !in ps[i];
    Text.SplitJoin(ps, '&');
  }
}
