/**
 * What the replay guard of `X402Middleware.require_payment` guarantees,
 * proved of its specification `Handle` (and so, through `Wrapped`, of the
 * method), for one request and for a sequence of requests sharing the
 * module-global set of consumed references.
 */
module MiddlewareProperties {
  import opened Common
  import Text
  import opened Middleware

  /** The request passes the replay guard and the verification (or verification is off). */
  predicate Admits(s: Settings, inc: Incoming, used: set<string>) {
    && Truthy(inc.signature) && Truthy(inc.reference)
    && inc.reference.value !in used
    && (s.verifyPayments ==> inc.verification.Verified?)
  }

  /** The set changes exactly on admission, and then by the request's reference alone. */
  lemma ConsumesExactlyOnAdmission(s: Settings, route: Route, inc: Incoming, used: set<string>)
    ensures var g := Handle(s, route, inc, used);
      && (Admits(s, inc, used) ==> g.used == used + {inc.reference.value})
      && (!Admits(s, inc, used) ==> g.used == used)
      && (g.used != used <==> Admits(s, inc, used))
  {
  }

  /**
   * A request bearing a signature and an already consumed reference gets
   * 402 `REPLAY_ATTACK`; nothing is called and the set is unchanged.
   */
  lemma ReplayRejected(s: Settings, route: Route, inc: Incoming, used: set<string>)
    requires Truthy(inc.signature) && Truthy(inc.reference) && inc.reference.value in used
    ensures Handle(s, route, inc, used) == Guarded(ReplayRejection, [], used)
  {
  }

  /** A payment the API does not verify is reported as failed and its reference stays unconsumed. */
  lemma NotVerifiedNotConsumed(s: Settings, route: Route, inc: Incoming, used: set<string>)
    requires s.verifyPayments && Truthy(inc.signature) && Truthy(inc.reference) && inc.reference.value !in used
    requires inc.verification == NotVerified
    ensures var g := Handle(s, route, inc, used);
      && g.reply == Rejected("Payment verification failed", "VERIFICATION_FAILED", None)
      && g.used == used
      && g.events == [VerifierCalled(VerifyRequest(inc.signature.value, inc.reference.value, route.amount,
                                                    ActualRecipient(s, route)))]
                     + (if s.hasFailedHook then [FailureReported("Verification failed")] else [])
  {
  }

  /** A verification call that raises gives `VERIFICATION_ERROR` with its message and consumes nothing. */
  lemma VerifierErrorNotConsumed(s: Settings, route: Route, inc: Incoming, used: set<string>, m: string)
    requires s.verifyPayments && Truthy(inc.signature) && Truthy(inc.reference) && inc.reference.value !in used
    requires inc.verification == VerifyRaises(m)
    ensures var g := Handle(s, route, inc, used);
      && g.reply == Rejected("Payment verification error", "VERIFICATION_ERROR", Some(m))
      && g.used == used
      && HandlerRan !in g.events
      && (s.hasFailedHook ==> g.events[|g.events| - 1] == FailureReported(m))
  {
  }

  /**
   * After a successful verification the reference is consumed before the
   * `on_payment_received` hook and the handler run, and the payment info
   * comes from the verified transaction; the handler's response is returned.
   */
  lemma VerifiedAdmission(s: Settings, route: Route, inc: Incoming, used: set<string>, tx: Transaction, body: string)
    requires s.verifyPayments && Truthy(inc.signature) && Truthy(inc.reference) && inc.reference.value !in used
    requires inc.verification == Verified(tx) && inc.handler == Completed(body)
    requires !s.hasReceivedHook || inc.receivedHookRaises.None?
    ensures var g := Handle(s, route, inc, used);
      var info := PaymentInfo(inc.signature.value, inc.reference.value, tx.amount, tx.currency, Some(tx.sender));
      && g.reply == Admitted(body, Some(info))
      && g.used == used + {inc.reference.value}
      && g.events[0] == VerifierCalled(VerifyRequest(inc.signature.value, inc.reference.value, route.amount,
                                                      ActualRecipient(s, route)))
      && g.events[1] == Consumed(inc.reference.value)
      && g.events[|g.events| - 1] == HandlerRan
      && (s.hasReceivedHook <==> ReceivedReported(info) in g.events)
  {
  }

  /**
   * An exception from the handler or from `on_payment_received` after a
   * successful verification is answered as a verification error, and the
   * reference stays consumed.
   */
  lemma LateErrorKeepsConsumed(s: Settings, route: Route, inc: Incoming, used: set<string>, tx: Transaction)
    requires s.verifyPayments && Truthy(inc.signature) && Truthy(inc.reference) && inc.reference.value !in used
    requires inc.verification == Verified(tx)
    requires (s.hasReceivedHook && inc.receivedHookRaises.Some?) || inc.handler.HandlerRaises?
    ensures var g := Handle(s, route, inc, used);
      var m := if s.hasReceivedHook && inc.receivedHookRaises.Some? then inc.receivedHookRaises.value
               else inc.handler.message;
      && g.reply == Rejected("Payment verification error", "VERIFICATION_ERROR", Some(m))
      && g.used == used + {inc.reference.value}
      && Consumed(inc.reference.value) in g.events
  {
  }

  /**
   * With `verify_payments=False` the proof headers alone admit the request:
   * no verifier call, the reference consumed, the route's amount and
   * currency as the payment info, and a handler exception propagating.
   */
  lemma UnverifiedAdmission(s: Settings, route: Route, inc: Incoming, used: set<string>)
    requires !s.verifyPayments && Truthy(inc.signature) && Truthy(inc.reference) && inc.reference.value !in used
    ensures var g := Handle(s, route, inc, used);
      var info := PaymentInfo(inc.signature.value, inc.reference.value, route.amount, route.currency, None);
      && g.used == used + {inc.reference.value}
      && g.events == [Consumed(inc.reference.value), HandlerRan]
      && (inc.handler.Completed? ==> g.reply == Admitted(inc.handler.body, Some(info)))
      && (inc.handler.HandlerRaises? ==> g.reply == Escaped(inc.handler.message))
  {
  }

  /**
   * A request missing a proof header is challenged: status 402 with a fresh
   * reference, `expires = int(now) + expires_in`, the X-402-* headers
   * mirroring the JSON payment object, the route's or else the
   * middleware's recipient, and the set untouched.
   */
  lemma ChallengeIssued(s: Settings, route: Route, inc: Incoming, used: set<string>)
    requires !Truthy(inc.signature) || !Truthy(inc.reference)
    ensures var g := Handle(s, route, inc, used);
      && g.used == used && g.events == [] && g.reply.Challenged?
      && var c := g.reply.challenge;
      && c.body.code == "PAYMENT_REQUIRED" && c.body.error == "Payment Required"
      && c.body.recipient == (if Truthy(route.recipient) then route.recipient.value else s.recipient)
      && c.body.reference == GenerateReference(inc.now, inc.suffix)
      && c.body.expires == Trunc(inc.now) + route.expiresIn
      && c.body.memo == MemoKey(route.memo)
      && c.headers.version == Some("1.0")
      && c.headers.amount == Some(c.body.amount) && c.body.amount == route.amount
      && c.headers.currency == Some(c.body.currency) && c.body.currency == route.currency
      && c.headers.recipient == Some(c.body.recipient)
      && c.headers.reference == Some(c.body.reference)
      && c.headers.expires == Some(c.body.expires)
  {
  }

  /**
   * The reference of a challenge is "pay_", then the lower-case hex digits
   * of `int(now)` (read back by `Text.HexValue`), then the twelve random
   * characters.
   */
  lemma ReferenceEncodesTime(now: real, suffix: string)
    requires 0.0 <= now && IsRandomPart(suffix)
    ensures var r := GenerateReference(now, suffix);
      && |r| >= 4 + 1 + 12
      && r[..4] == "pay_" && r[|r| - 12..] == suffix
      && (forall i :: 4 <= i < |r| - 12 ==> Text.IsHexChar(r[i]))
      && Text.HexValue(r[4..|r| - 12]) == Trunc(now)
  {
    var r := GenerateReference(now, suffix);
    var stamp := Text.HexDigits(Trunc(now));
    assert r == "pay_" + stamp + suffix;
    assert r[4..|r| - 12] == stamp;
    Text.HexRoundTrip(Trunc(now));
  }

  /** The standalone decorator admits any request with a signature header, without the set. */
  lemma StandaloneAdmitsAnySignature(route: Route, inc: Incoming)
    requires Truthy(inc.signature)
    ensures var reply := StandaloneHandle(route, inc);
      && (inc.handler.Completed? ==> reply == Admitted(inc.handler.body, None))
      && (inc.handler.HandlerRaises? ==> reply == Escaped(inc.handler.message))
  {
  }

  /** The standalone challenge names a recipient in its body but sends no `X-402-Recipient` header. */
  lemma StandaloneChallengeOmitsRecipient(route: Route, inc: Incoming)
    requires !Truthy(inc.signature)
    ensures var reply := StandaloneHandle(route, inc);
      && reply.Challenged? && reply.challenge.headers.recipient.None?
      && reply.challenge.body.recipient == (if Truthy(route.recipient) then route.recipient.value else DefaultChallengeRecipient)
      && reply.challenge.headers.reference == Some(GenerateReference(inc.now, inc.suffix))
      && reply.challenge.body.memo == NoMemoKey && reply.challenge.body.instructions.None?
  {
  }

  /** One request to some decorated view of some middleware instance. */
  datatype Served = Served(settings: Settings, route: Route, incoming: Incoming)

  /** The consumed-reference set that request `i` of `reqs` sees, starting from `used`. */
  function SetBefore(reqs: seq<Served>, used: set<string>, i: nat): set<string>
    requires i <= |reqs|
  {
    if i == 0 then used
    else Handle(reqs[i - 1].settings, reqs[i - 1].route, reqs[i - 1].incoming, SetBefore(reqs, used, i - 1)).used
  }

  /** How request `i` of `reqs` is handled. */
  function Nth(reqs: seq<Served>, used: set<string>, i: nat): Guarded
    requires i < |reqs|
  {
    Handle(reqs[i].settings, reqs[i].route, reqs[i].incoming, SetBefore(reqs, used, i))
  }

  /** The set only grows. */
  lemma {:induction false} SetOnlyGrows(reqs: seq<Served>, used: set<string>, i: nat, j: nat)
    requires i <= j <= |reqs|
    ensures SetBefore(reqs, used, i) <= SetBefore(reqs, used, j)
    decreases j
  {
    if i < j {
      SetOnlyGrows(reqs, used, i, j - 1);
      ConsumesExactlyOnAdmission(reqs[j - 1].settings, reqs[j - 1].route, reqs[j - 1].incoming,
                                 SetBefore(reqs, used, j - 1));
    }
  }

  /**
   * Once a reference is consumed, every later request bearing it and a
   * signature is rejected as a replay, whichever view or middleware
   * instance it reaches, without calling the verifier.
   */
  lemma ConsumedRejectedForever(reqs: seq<Served>, used: set<string>, i: nat, j: nat)
    requires i <= j < |reqs|
    requires Truthy(reqs[j].incoming.signature) && Truthy(reqs[j].incoming.reference)
    requires reqs[j].incoming.reference.value in SetBefore(reqs, used, i)
    ensures Nth(reqs, used, j) == Guarded(ReplayRejection, [], SetBefore(reqs, used, j))
  {
    SetOnlyGrows(reqs, used, i, j);
    ReplayRejected(reqs[j].settings, reqs[j].route, reqs[j].incoming, SetBefore(reqs, used, j));
  }

  /** No reference is consumed twice: two requests that consume carry different references. */
  lemma ConsumedAtMostOnce(reqs: seq<Served>, used: set<string>, i: nat, j: nat)
    requires i < j < |reqs|
    requires Admits(reqs[i].settings, reqs[i].incoming, SetBefore(reqs, used, i))
    requires Admits(reqs[j].settings, reqs[j].incoming, SetBefore(reqs, used, j))
    ensures reqs[i].incoming.reference != reqs[j].incoming.reference
  {
    ConsumesExactlyOnAdmission(reqs[i].settings, reqs[i].route, reqs[i].incoming, SetBefore(reqs, used, i));
    assert reqs[i].incoming.reference.value in SetBefore(reqs, used, i + 1);
    SetOnlyGrows(reqs, used, i + 1, j);
  }
}
