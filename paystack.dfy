/** The payment-gateway adapter (Paystack): transaction initialisation and
    verification as calls whose failures surface as BadRequest, the webhook
    signature check, payment references, and naira/kobo conversion. The HTTP
    calls and the HMAC-SHA512 digest (RFC 2104 HMAC over the SHA-512 of
    FIPS 180-4, hex encoded) are outside this model: they are functions the
    gateway value carries, about which nothing is assumed. */
module Paystack {
  import opened Common
  import opened Records

  /** The metadata object attached to a transaction; the gateway echoes it
      back on verification and in webhook events. */
  datatype Metadata = Metadata(
    paymentType: Option<string>,
    clientId: Option<string>,
    purchaseId: Option<string>,
    amountNaira: Option<real>,
    deliveryOption: Option<DeliveryOption>)

  /** The body of `POST /transaction/initialize`; `amount` is in kobo. */
  datatype InitRequest = InitRequest(email: string, amount: int, reference: string, metadata: Metadata)

  datatype InitData = InitData(authorizationUrl: string, accessCode: string, reference: string)

  datatype InitResponse = InitResponse(status: bool, message: string, data: InitData)

  /** The part of a verification response the services read; `amount` is in kobo. */
  datatype VerifyData = VerifyData(status: string, reference: string, amount: int, paidAt: string, metadata: Option<Metadata>)

  datatype VerifyResponse = VerifyResponse(status: bool, message: string, data: VerifyData)

  /** A configured PaystackService. `postInitialize` and `getVerify` give the
      gateway's 2xx response body, or None when the HTTP call failed; the
      digest function takes the key and the payload. */
  datatype Gateway = Gateway(
    secretKey: string,
    hmacSha512Hex: (string, string) -> string,
    postInitialize: InitRequest -> Option<InitResponse>,
    getVerify: string -> Option<VerifyResponse>)

  /** What the services hand back from an initialised transaction. */
  datatype PaymentHandles = PaymentHandles(authorizationUrl: string, accessCode: string, reference: string)

  function HandlesOf(resp: InitResponse): PaymentHandles {
    PaymentHandles(resp.data.authorizationUrl, resp.data.accessCode, resp.data.reference)
  }

  /** `!status || data.status !== 'success'` is what both services reject. */
  predicate ChargeSucceeded(reply: VerifyResponse) {
    reply.status && reply.data.status == "success"
  }

  /** The payment part of a verification result, the amount back in naira. */
  datatype PaymentSummary = PaymentSummary(reference: string, amount: real, paidAt: string)

  function SummaryOf(reply: VerifyResponse): PaymentSummary {
    PaymentSummary(reply.data.reference, ConvertFromKobo(reply.data.amount), reply.data.paidAt)
  }

  const MissingKeyMessage := "PAYSTACK_SECRET_KEY environment variable is required"

  /** The constructor: reads the secret key from the environment and refuses
      to start without one (an empty key counts as missing). */
  function NewPaystackService(
    env: Option<string>,
    hmacSha512Hex: (string, string) -> string,
    postInitialize: InitRequest -> Option<InitResponse>,
    getVerify: string -> Option<VerifyResponse>): (r: Result<Gateway>)
    ensures r.Ok? <==> Truthy(env)
    ensures r.Ok? ==> r.value.secretKey == env.value && r.value.secretKey != ""
    ensures r.Err? ==> r.error == Internal(MissingKeyMessage)
  {
    if Truthy(env) then Ok(Gateway(env.value, hmacSha512Hex, postInitialize, getVerify))
    else Err(Internal(MissingKeyMessage))
  }

  const InitializeFailedMessage := "Failed to initialize payment"
  const VerifyFailedMessage := "Failed to verify payment"

  /** `initializeTransaction`: any failure of the HTTP call becomes a BadRequest
      that does not reveal the gateway's answer. */
  function InitializeTransaction(g: Gateway, req: InitRequest): (r: Result<InitResponse>)
    ensures r.Err? <==> g.postInitialize(req).None?
    ensures r.Err? ==> r.error == BadRequest(InitializeFailedMessage)
    ensures r.Ok? ==> Some(r.value) == g.postInitialize(req)
  {
    match g.postInitialize(req)
    case None => Err(BadRequest(InitializeFailedMessage))
    case Some(resp) => Ok(resp)
  }

  /** `verifyTransaction`: any failure of the HTTP call becomes a BadRequest. */
  function VerifyTransaction(g: Gateway, reference: string): (r: Result<VerifyResponse>)
    ensures r.Err? <==> g.getVerify(reference).None?
    ensures r.Err? ==> r.error == BadRequest(VerifyFailedMessage)
    ensures r.Ok? ==> Some(r.value) == g.getVerify(reference)
  {
    match g.getVerify(reference)
    case None => Err(BadRequest(VerifyFailedMessage))
    case Some(resp) => Ok(resp)
  }

  /** `verifyWebhookSignature`: the hex digest of the payload under the secret
      key, compared with the signature header by plain string equality. A
      missing header never matches. */
  function VerifyWebhookSignature(g: Gateway, payload: string, signature: Option<string>): (ok: bool)
    ensures ok <==> signature == Some(g.hmacSha512Hex(g.secretKey, payload))
  {
    signature.Some? && g.hmacSha512Hex(g.secretKey, payload) == signature.value
  }

  /** For a given payload at most one signature is accepted. */
  lemma SignatureIsUnique(g: Gateway, payload: string, s1: Option<string>, s2: Option<string>)
    requires VerifyWebhookSignature(g, payload, s1) && VerifyWebhookSignature(g, payload, s2)
    ensures s1 == s2 && s1.Some?
  {
  }

  // ---- payment references ----

  /** What `Math.random().toString(36).substring(2, 15)` yields: at most 13
      characters, lower-case letters and digits. */
  predicate RandomToken(token: string) {
    |token| <= 13 && forall i :: 0 <= i < |token| ==> IsDigit(token[i]) || 'a' <= token[i] <= 'z'
  }

  /** `generateReference(prefix)`: `${prefix}_${Date.now()}_${random}`; the
      clock reading and the random token are parameters. Every caller names
      its prefix, so the default prefix `gym` is never taken. */
  function GenerateReference(prefix: string, timestamp: nat, token: string): string {
    prefix + "_" + DecimalString(timestamp) + "_" + token
  }

  datatype ReferenceParts = ReferenceParts(prefix: string, timestamp: nat, token: string)

  /** Position of the last occurrence of `c`. */
  function LastIndexOf(s: string, c: char): (r: Option<nat>)
    ensures r.None? <==> c !in s
    ensures r.Some? ==> r.value < |s| && s[r.value] == c && c !in s[r.value + 1..]
  {
    if s == [] then None
    else if s[|s| - 1] == c then Some(|s| - 1)
    else
      var r := LastIndexOf(s[..|s| - 1], c);
      assert s == s[..|s| - 1] + [s[|s| - 1]];
      if r.Some? then assert s[r.value + 1..] == s[..|s| - 1][r.value + 1..] + [s[|s| - 1]]; r
      else r
  }

  /** Splits a reference back into prefix, timestamp and token, reading the
      last two underscores from the right. */
  function ParseReference(r: string): Option<ReferenceParts> {
    match LastIndexOf(r, '_')
    case None => None
    case Some(j) =>
      var head := r[..j];
      match LastIndexOf(head, '_')
      case None => None
      case Some(i) =>
        var digits := head[i + 1..];
        if digits != [] && AllDigits(digits) then
          Some(ReferenceParts(head[..i], DecimalValue(digits), r[j + 1..]))
        else None
  }

  lemma {:induction false} LastIndexOfAfterSeparator(a: string, c: char, b: string)
    requires c !in b
    ensures LastIndexOf(a + [c] + b, c) == Some(|a|)
  {
    var s := a + [c] + b;
    if b != [] {
      var b' := b[..|b| - 1];
      assert s[..|s| - 1] == a + [c] + b';
      assert s[|s| - 1] == b[|b| - 1];
      assert c !in b' by {
        forall k | 0 <= k < |b'| ensures b'[k] != c {
          assert b'[k] == b[k];
        }
      }
      LastIndexOfAfterSeparator(a, c, b');
    }
  }

  /** References are unambiguous: the prefix, the clock reading and the
      random token can be read back from a generated reference, whatever
      the prefix contains. */
  lemma ReferenceRoundTrip(prefix: string, timestamp: nat, token: string)
    requires RandomToken(token)
    ensures ParseReference(GenerateReference(prefix, timestamp, token)) == Some(ReferenceParts(prefix, timestamp, token))
  {
    var d := DecimalString(timestamp);
    var r := GenerateReference(prefix, timestamp, token);
    var head := prefix + "_" + d;
    assert '_' !in token by {
      forall k | 0 <= k < |token| ensures token[k] != '_' { }
    }
    assert r == head + ['_'] + token;
    LastIndexOfAfterSeparator(head, '_', token);
    assert '_' !in d by {
      forall k | 0 <= k < |d| ensures d[k] != '_' { assert IsDigit(d[k]); }
    }
    assert head == prefix + ['_'] + d;
    LastIndexOfAfterSeparator(prefix, '_', d);
    assert r[..|head|] == head;
    assert head[|prefix| + 1..] == d;
    assert head[..|prefix|] == prefix;
    assert r[|head| + 1..] == token;
    DecimalRoundTrip(timestamp);
  }

  // ---- currency units ----

  /** JavaScript `Math.round` on an exact real: the nearest integer, halves
      rounded up. */
  function Round(x: real): (n: int)
    ensures n as real - 0.5 <= x < n as real + 0.5
  {
    (x + 0.5).Floor
  }

  /** `convertToKobo`: naira to kobo, `Math.round(amount * 100)`. */
  function ConvertToKobo(amount: real): (kobo: int)
    ensures -0.5 <= kobo as real - amount * 100.0 <= 0.5
  {
    Round(amount * 100.0)
  }

  /** `convertFromKobo`: kobo to naira, `amount / 100`. */
  function ConvertFromKobo(kobo: int): (amount: real)
    ensures amount * 100.0 == kobo as real
  {
    kobo as real / 100.0
  }

  /** Whole naira convert to kobo exactly. */
  lemma KoboOfWholeNaira(naira: int)
    ensures ConvertToKobo(naira as real) == 100 * naira
  {
    var k := ConvertToKobo(naira as real);
    assert (k - 100 * naira) as real <= 0.5;
    assert (k - 100 * naira) as real >= -0.5;
  }

  /** Every kobo amount survives the trip through naira and back. */
  lemma KoboRoundTrip(kobo: int)
    ensures ConvertToKobo(ConvertFromKobo(kobo)) == kobo
  {
    var k := ConvertToKobo(ConvertFromKobo(kobo));
    assert (k - kobo) as real <= 0.5;
    assert (k - kobo) as real >= -0.5;
  }

  /** Whole naira survive the trip through kobo and back. */
  lemma NairaRoundTrip(naira: int)
    ensures ConvertFromKobo(ConvertToKobo(naira as real)) == naira as real
  {
    KoboOfWholeNaira(naira);
  }

  // ---- webhook events ----

  /** The parsed body of a webhook call. Events from the gateway carry the
      transaction's metadata under `data`; `metadata` is the top-level field
      of the same name, which they normally lack. */
  datatype WebhookData = WebhookData(reference: string, metadata: Option<Metadata>)

  datatype WebhookEvent = WebhookEvent(event: string, data: Option<WebhookData>, metadata: Option<Metadata>)

  const ChargeSuccess := "charge.success"

  /** `metadata?.payment_type === tag`. */
  predicate PaymentTypeIs(m: Option<Metadata>, tag: string) {
    m.Some? && m.value.paymentType == Some(tag)
  }

  /** What a service's `handleWebhook` does with an event: nothing, verify
      the transaction with the given reference (errors swallowed), or fail
      because `payload.data` cannot be destructured. */
  datatype WebhookAction = Ignore | VerifyReference(reference: string) | Malformed

  /** The shared shape of both services' `handleWebhook`: only a
      'charge.success' event whose `data.metadata.payment_type` is `tag`
      leads to a verification. */
  function WebhookActionFor(ev: WebhookEvent, tag: string): (a: WebhookAction)
    ensures a.VerifyReference? <==> ev.event == ChargeSuccess && ev.data.Some? && PaymentTypeIs(ev.data.value.metadata, tag)
    ensures a.VerifyReference? ==> a.reference == ev.data.value.reference
    ensures a.Malformed? <==> ev.event == ChargeSuccess && ev.data.None?
  {
    if ev.event != ChargeSuccess then Ignore
    else if ev.data.None? then Malformed
    else if PaymentTypeIs(ev.data.value.metadata, tag) then VerifyReference(ev.data.value.reference)
    else Ignore
  }

  const DestructureMessage := "Cannot destructure property 'reference' of 'payload.data'"
}
