/**
 * The two halves of the 402 handshake together: the challenge the
 * middleware issues, read by the client's parser and by the legacy
 * `handle_402`, and the paid retry read back by the replay guard.
 */
module Handshake {
  import opened Common
  import opened Errors
  import opened Client
  import Middleware
  import MiddlewareProperties
  import ClientProperties
  import LegacySdk

  /** `request.headers.get(name)`. */
  function HeaderValue(headers: map<string, string>, name: string): Option<string> {
    if name in headers then Some(headers[name]) else None
  }

  /**
   * The client parser recovers amount, currency, recipient, reference and
   * expiry from the middleware's challenge headers, and rejects the
   * challenge with `INVALID_402` exactly when the amount is zero or the
   * recipient empty.
   */
  lemma ChallengeParsesBack(c: Middleware.Challenge, route: Middleware.Route, recipient: string, now: real, suffix: string)
    requires c == Middleware.IssueChallenge(route, recipient, now, suffix)
    ensures route.amount != 0.0 && recipient != "" ==>
      ParseRequirement(c.headers)
        == Success(Requirement(route.amount, route.currency, recipient, c.body.reference, c.body.expires, None))
    ensures route.amount == 0.0 || recipient == "" ==>
      ParseRequirement(c.headers) == Failure(NewError(InvalidChallengeMessage, "INVALID_402"))
  {
  }

  /** The standalone decorator's challenge has no `X-402-Recipient`, so the client parser always rejects it. */
  lemma StandaloneChallengeRejected(route: Middleware.Route, inc: Middleware.Incoming)
    requires !Truthy(inc.signature)
    ensures var reply := Middleware.StandaloneHandle(route, inc);
      reply.Challenged? && ParseRequirement(reply.challenge.headers) == Failure(NewError(InvalidChallengeMessage, "INVALID_402"))
  {
  }

  /**
   * The legacy `handle_402` accepts the middleware's challenge exactly when
   * its amount is non-zero and its recipient non-empty, returning those two,
   * and rejects every standalone challenge.
   */
  lemma LegacyReadsChallenges(route: Middleware.Route, recipient: string, inc: Middleware.Incoming)
    requires !Truthy(inc.signature)
    ensures var c := Middleware.IssueChallenge(route, recipient, inc.now, inc.suffix);
      LegacySdk.Handle402(402, c.headers.amount, c.headers.recipient)
        == if route.amount != 0.0 && recipient != "" then Success(LegacySdk.Legacy402(route.amount, recipient))
           else Failure(LegacySdk.InvalidHeadersMessage)
    ensures var s := Middleware.StandaloneHandle(route, inc);
      LegacySdk.Handle402(402, s.challenge.headers.amount, s.challenge.headers.recipient)
        == Failure(LegacySdk.InvalidHeadersMessage)
  {
  }

  /**
   * A client answering the middleware's challenge within its ceiling and
   * before it expires pays the challenge's requirement, and its paid retry
   * carries the executor's signature and the challenge's reference, which
   * the replay guard reads as the request's proof.
   */
  lemma PaidRetryCarriesChallengeReference(call: Call, env: Env, k: nat, route: Middleware.Route, recipient: string,
                                           now: real, suffix: string)
    requires 0 < call.retryAttempts && call.autoSign && call.keypaired
    requires route.amount != 0.0 && recipient != ""
    requires env.transport(k).Reply? && env.transport(k).response.status == 402
    requires env.transport(k).response.payment == Middleware.IssueChallenge(route, recipient, now, suffix).headers
    requires route.amount <= call.ceiling
    requires env.clock(k) <= (Middleware.Trunc(now) + route.expiresIn) as real
    ensures var c := Middleware.IssueChallenge(route, recipient, now, suffix);
      var req := Requirement(route.amount, route.currency, recipient, c.body.reference, c.body.expires, None);
      var r := Run(call, env, 0, k, None);
      && r.trace.payments != [] && r.trace.payments[0] == Payment(k, req, env.executor(req))
      && |r.trace.sent| >= 2
      && HeaderValue(r.trace.sent[1].headers, PaymentSignatureHeader) == Some(env.executor(req))
      && HeaderValue(r.trace.sent[1].headers, PaymentReferenceHeader) == Some(c.body.reference)
  {
    var c := Middleware.IssueChallenge(route, recipient, now, suffix);
    var req := Requirement(route.amount, route.currency, recipient, c.body.reference, c.body.expires, None);
    ChallengeParsesBack(c, route, recipient, now, suffix);
    ClientProperties.ChallengeChecksInOrder(call, env, 0, k, None, req);
  }

  /** The request the guard sees for a set of headers. */
  function ReadProof(headers: map<string, string>, inc: Middleware.Incoming): Middleware.Incoming {
    inc.(signature := HeaderValue(headers, PaymentSignatureHeader), reference := HeaderValue(headers, PaymentReferenceHeader))
  }

  /**
   * Delivered to a verifying middleware, a paid retry whose reference is
   * fresh and whose payment the API verifies is admitted and consumes the
   * reference (an `on_payment_received` hook that returns normally changes
   * nothing); delivered again, the same headers are rejected as a replay.
   */
  lemma PaidRetryAdmittedOnce(s: Middleware.Settings, route: Middleware.Route, headers: map<string, string>,
                              original: map<string, string>, signature: string, reference: string,
                              tx: Middleware.Transaction, body: string,
                              inc: Middleware.Incoming, used: set<string>)
    requires s.verifyPayments && (!s.hasReceivedHook || inc.receivedHookRaises.None?)
    requires signature != "" && reference != "" && reference !in used
    requires headers == ProofHeaders(original, signature, reference)
    requires inc.verification == Middleware.Verified(tx) && inc.handler == Middleware.Completed(body)
    ensures var first := Middleware.Handle(s, route, ReadProof(headers, inc), used);
      && first.reply.Admitted?
      && first.used == used + {reference}
      && Middleware.Handle(s, route, ReadProof(headers, inc), first.used)
           == Middleware.Guarded(Middleware.ReplayRejection, [], first.used)
  {
    var inc' := ReadProof(headers, inc);
    assert inc'.signature == Some(signature) && inc'.reference == Some(reference);
    MiddlewareProperties.VerifiedAdmission(s, route, inc', used, tx, body);
    MiddlewareProperties.ReplayRejected(s, route, inc', used + {reference});
  }
}
