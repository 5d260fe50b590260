/**
 * The server half of the 402 handshake: the `wrapped` view function that
 * `X402Middleware.require_payment` puts around a Flask handler (replay
 * guard, verification, challenge), the standalone `require_payment`
 * decorator and `_generate_reference`.
 *
 * Per request, everything the view reads from outside is a field of
 * `Incoming`: the two proof headers, what the verification call returns
 * or raises, what the handler and the `on_payment_received` hook do, the
 * `time.time()` reading and the twelve random characters of the reference.
 * The module-global set of consumed references is a `ReferenceStore`
 * object shared by every middleware instance.
 */
module Middleware {
  import opened Common
  import Text
  import Client

  const DefaultChallengeRecipient := "RECIPIENT_ADDRESS"
  const Instructions := "Send payment to the recipient address and retry with X-402-Payment-Signature and X-402-Payment-Reference headers"

  /** The arguments of one `require_payment(...)` decoration. */
  datatype Route = Route(amount: real, currency: string, recipient: Option<string>, expiresIn: int,
                         memo: Option<string>)

  /** The fields of a verified transaction that the view reads. */
  datatype Transaction = Transaction(signature: string, amount: real, currency: string, sender: string,
                                     recipient: string)

  /** What `self.client.verify(...)` does: verified, not verified, or an exception with its `str`. */
  datatype Verification = Verified(transaction: Transaction) | NotVerified | VerifyRaises(message: string)

  /** types.py `VerifyRequest`: what the view asks the API to check. */
  datatype VerifyRequest = VerifyRequest(signature: string, reference: string, expectedAmount: real,
                                         expectedRecipient: string)

  /** types.py `PaymentInfo`, as stored on `request.x402_payment` (the timestamp left out). */
  datatype PaymentInfo = PaymentInfo(signature: string, reference: string, amount: real, currency: string,
                                     sender: Option<string>)

  /** What the wrapped handler does: return a response body, or raise. */
  datatype HandlerResult = Completed(body: string) | HandlerRaises(message: string)

  /** Everything one request brings to the view from outside. */
  datatype Incoming = Incoming(
    signature: Option<string>, reference: Option<string>,   // X-402-Payment-Signature / -Reference
    verification: Verification, handler: HandlerResult,
    receivedHookRaises: Option<string>,                      // `on_payment_received` raising, if it does
    now: real, suffix: string)

  /** The middleware's own fields. */
  datatype Settings = Settings(recipient: string, verifyPayments: bool, hasReceivedHook: bool, hasFailedHook: bool)

  /** The outside calls the view makes, in order. */
  datatype Event =
    | VerifierCalled(request: VerifyRequest)
    | Consumed(reference: string)          // _used_references.add(reference)
    | FailureReported(message: string)     // on_payment_failed(e), `str(e)` being the message
    | ReceivedReported(info: PaymentInfo)  // on_payment_received(info)
    | HandlerRan

  /** The "memo" key of the challenge's payment object: absent, or present (possibly null). */
  datatype MemoField = NoMemoKey | MemoKey(memo: Option<string>)

  /** The JSON body of a challenge. */
  datatype ChallengeBody = ChallengeBody(
    error: string, code: string, amount: real, currency: string, recipient: string, reference: string,
    expires: int, memo: MemoField, instructions: Option<string>)

  /** A 402 challenge: its body and its X-402-* headers, decoded. */
  datatype Challenge = Challenge(body: ChallengeBody, headers: Client.PaymentHeaders)

  /** What the view returns, or the exception that leaves it. */
  datatype Reply =
    | Admitted(body: string, payment: Option<PaymentInfo>)            // the handler's response
    | Rejected(error: string, code: string, message: Option<string>)  // a 402 JSON error
    | Challenged(challenge: Challenge)                                // a 402 challenge
    | Escaped(exception: string)                                     // the handler's exception propagates

  /** One request handled: the reply, the outside calls made and the consumed-reference set afterwards. */
  datatype Guarded = Guarded(reply: Reply, events: seq<Event>, used: set<string>)

  /** Python `int(x)` on a float: truncation toward zero. */
  function Trunc(x: real): (n: int)
    ensures 0.0 <= x ==> n as real <= x < n as real + 1.0
    ensures x < 0.0 ==> n as real - 1.0 < x <= n as real
  {
    if 0.0 <= x then x.Floor else -((-x).Floor)
  }

  /** `hex(n)[2:]`: the digits for n >= 0, and "x" then the digits for a negative n (from "-0x..."). */
  function HexStamp(n: int): string {
    if 0 <= n then Text.HexDigits(n) else "x" + Text.HexDigits(-n)
  }

  predicate IsRandomChar(c: char) {
    ('a' <= c <= 'z') || ('0' <= c <= '9')
  }

  /** What `random.choices(ascii_lowercase + digits, k=12)` can produce. */
  predicate IsRandomPart(s: string) {
    |s| == 12 && forall i :: 0 <= i < |s| ==> IsRandomChar(s[i])
  }

  /** `_generate_reference`, given the clock reading and the random characters. */
  function GenerateReference(now: real, suffix: string): (r: string)
    ensures |r| > 4 + |suffix| && r[..4] == "pay_" && r[|r| - |suffix|..] == suffix
    ensures 0.0 <= now && IsRandomPart(suffix) ==> forall i :: 4 <= i < |r| ==> IsRandomChar(r[i])
  {
    var stamp := HexStamp(Trunc(now));
    var r := "pay_" + stamp + suffix;
    assert r[4..4 + |stamp|] == stamp && r[4 + |stamp|..] == suffix;
    r
  }

  /** `recipient or self.recipient`. */
  function ActualRecipient(s: Settings, route: Route): string {
    if Truthy(route.recipient) then route.recipient.value else s.recipient
  }

  /** The challenge issued when a proof header is missing (lines 118-142). */
  function IssueChallenge(route: Route, recipient: string, now: real, suffix: string): (c: Challenge)
    ensures c.headers == Client.PaymentHeaders(Some("1.0"), Some(c.body.amount), Some(c.body.currency),
                                               Some(c.body.recipient), Some(c.body.reference), Some(c.body.expires), None)
    ensures c.body.amount == route.amount && c.body.currency == route.currency && c.body.recipient == recipient
    ensures |c.body.reference| > 4 && c.body.reference[..4] == "pay_" && c.body.expires == Trunc(now) + route.expiresIn
  {
    var reference := GenerateReference(now, suffix);
    var expires := Trunc(now) + route.expiresIn;
    Challenge(
      ChallengeBody("Payment Required", "PAYMENT_REQUIRED", route.amount, route.currency, recipient, reference,
                    expires, MemoKey(route.memo), Some(Instructions)),
      Client.PaymentHeaders(Some("1.0"), Some(route.amount), Some(route.currency), Some(recipient), Some(reference),
                            Some(expires), None))
  }

  /** `on_payment_failed(e)` when the hook is set. */
  function ReportFailure(s: Settings, message: string): seq<Event> {
    if s.hasFailedHook then [FailureReported(message)] else []
  }

  const ReplayRejection := Rejected("Payment reference already used", "REPLAY_ATTACK", None)
  const VerificationFailed := Rejected("Payment verification failed", "VERIFICATION_FAILED", None)

  function VerificationError(message: string): Reply {
    Rejected("Payment verification error", "VERIFICATION_ERROR", Some(message))
  }

  /** The `wrapped` view (lines 50-142) given the consumed-reference set `used`. */
  function Handle(s: Settings, route: Route, inc: Incoming, used: set<string>): (g: Guarded)
    ensures used <= g.used
    ensures g.used != used ==> inc.reference.Some? && g.used == used + {inc.reference.value}
    ensures g.reply.Challenged? <==> !(Truthy(inc.signature) && Truthy(inc.reference))
    ensures g.reply.Challenged? ==> g.events == [] && g.used == used
  {
    var recipient := ActualRecipient(s, route);
    if Truthy(inc.signature) && Truthy(inc.reference) then
      var signature, reference := inc.signature.value, inc.reference.value;
      if reference in used then Guarded(ReplayRejection, [], used)
      else if s.verifyPayments then
        var asked := [VerifierCalled(VerifyRequest(signature, reference, route.amount, recipient))];
        match inc.verification
        case VerifyRaises(m) => Guarded(VerificationError(m), asked + ReportFailure(s, m), used)
        case NotVerified => Guarded(VerificationFailed, asked + ReportFailure(s, "Verification failed"), used)
        case Verified(tx) =>
          var info := PaymentInfo(signature, reference, tx.amount, tx.currency, Some(tx.sender));
          var reported := asked + [Consumed(reference)] + (if s.hasReceivedHook then [ReceivedReported(info)] else []);
          if s.hasReceivedHook && inc.receivedHookRaises.Some? then
            var m := inc.receivedHookRaises.value;
            Guarded(VerificationError(m), reported + ReportFailure(s, m), used + {reference})
          else
            match inc.handler
            case Completed(body) => Guarded(Admitted(body, Some(info)), reported + [HandlerRan], used + {reference})
            case HandlerRaises(m) =>
              Guarded(VerificationError(m), reported + [HandlerRan] + ReportFailure(s, m), used + {reference})
      else
        var info := PaymentInfo(signature, reference, route.amount, route.currency, None);
        match inc.handler
        case Completed(body) => Guarded(Admitted(body, Some(info)), [Consumed(reference), HandlerRan], used + {reference})
        case HandlerRaises(m) => Guarded(Escaped(m), [Consumed(reference), HandlerRan], used + {reference})
    else
      Guarded(Challenged(IssueChallenge(route, recipient, inc.now, inc.suffix)), [], used)
  }

  /** The module-global `_used_references` set. */
  class ReferenceStore {
    var used: set<string>

    constructor()
      ensures used == {}
    {
      used := {};
    }
  }

  /** `X402Middleware`: its settings and the shared reference store it guards with. */
  class X402Middleware {
    const settings: Settings
    const store: ReferenceStore

    constructor(recipient: string, store: ReferenceStore, verifyPayments: bool := true,
                hasReceivedHook: bool := false, hasFailedHook: bool := false)
      ensures settings == Settings(recipient, verifyPayments, hasReceivedHook, hasFailedHook)
      ensures this.store == store
    {
      settings := Settings(recipient, verifyPayments, hasReceivedHook, hasFailedHook);
      this.store := store;
    }

    /** One request through the `wrapped` view of `require_payment(route...)`. */
    method Wrapped(route: Route, inc: Incoming) returns (reply: Reply, events: seq<Event>)
      modifies store
      ensures Guarded(reply, events, store.used) == Handle(settings, route, inc, old(store.used))
      ensures old(store.used) <= store.used
    {
      var recipient := ActualRecipient(settings, route);
      events := [];
      if Truthy(inc.signature) && Truthy(inc.reference) {
        var signature, reference := inc.signature.value, inc.reference.value;
        if reference in store.used {
          return ReplayRejection, events;
        }
        if !settings.verifyPayments {
          store.used := store.used + {reference};
          var info := PaymentInfo(signature, reference, route.amount, route.currency, None);
          events := events + [Consumed(reference), HandlerRan];
          match inc.handler {
            case Completed(body) => reply := Admitted(body, Some(info));
            case HandlerRaises(m) => reply := Escaped(m);
          }
          return;
        }
        events := events + [VerifierCalled(VerifyRequest(signature, reference, route.amount, recipient))];
        reply, events := Verify(route, inc, signature, reference, events);
        return;
      }
      reply := Challenged(IssueChallenge(route, recipient, inc.now, inc.suffix));
    }

    /** The `try` block of lines 64-106 once the verifier has been asked. */
    method Verify(route: Route, inc: Incoming, signature: string, reference: string, asked: seq<Event>)
      returns (reply: Reply, events: seq<Event>)
      requires settings.verifyPayments && reference !in store.used
      requires inc.signature == Some(signature) && inc.reference == Some(reference)
      requires signature != "" && reference != ""
      requires asked == [VerifierCalled(VerifyRequest(signature, reference, route.amount, ActualRecipient(settings, route)))]
      modifies store
      ensures Guarded(reply, events, store.used) == Handle(settings, route, inc, old(store.used))
    {
      events := asked;
      var failure: Option<string> := None;
      match inc.verification {
        case VerifyRaises(m) =>
          failure := Some(m);
        case NotVerified =>
          events := events + ReportFailure(settings, "Verification failed");
          return VerificationFailed, events;
        case Verified(tx) =>
          store.used := store.used + {reference};
          events := events + [Consumed(reference)];
          var info := PaymentInfo(signature, reference, tx.amount, tx.currency, Some(tx.sender));
          if settings.hasReceivedHook {
            events := events + [ReceivedReported(info)];
            failure := inc.receivedHookRaises;
          }
          if failure.None? {
            events := events + [HandlerRan];
            match inc.handler {
              case Completed(body) =>
                return Admitted(body, Some(info)), events;
              case HandlerRaises(m) =>
                failure := Some(m);
            }
          }
      }
      events := events + ReportFailure(settings, failure.value);
      reply := VerificationError(failure.value);
    }
  }

  /** The standalone `require_payment` view (lines 172-199): never consults the reference set. */
  function StandaloneHandle(route: Route, inc: Incoming): (r: Reply)
    ensures Truthy(inc.signature) ==> r == (if inc.handler.Completed? then Admitted(inc.handler.body, None)
                                            else Escaped(inc.handler.message))
    ensures !Truthy(inc.signature) ==>
      && r.Challenged? && r.challenge.headers.recipient.None? && r.challenge.body.memo.NoMemoKey?
      && r.challenge.headers.reference == Some(r.challenge.body.reference)
      && |r.challenge.body.reference| > 4 && r.challenge.body.reference[..4] == "pay_"
  {
    var reference := GenerateReference(inc.now, inc.suffix);
    var expires := Trunc(inc.now) + route.expiresIn;
    if Truthy(inc.signature) then
      match inc.handler
      case Completed(body) => Admitted(body, None)
      case HandlerRaises(m) => Escaped(m)
    else
      var recipient := if Truthy(route.recipient) then route.recipient.value else DefaultChallengeRecipient;
      Challenged(Challenge(
        ChallengeBody("Payment Required", "PAYMENT_REQUIRED", route.amount, route.currency, recipient, reference,
                      expires, NoMemoKey, None),
        Client.PaymentHeaders(Some("1.0"), Some(route.amount), Some(route.currency), None, Some(reference),
                              Some(expires), None)))
  }
}
