/** The Paystack client of src/services/payment.service.ts: the parameters of
    a transaction-initialisation request and the webhook signature check. The
    HTTP calls and HMAC-SHA512 are foreign: they are passed in as functions. */
module Payment {
  import opened Wrappers

  /** The secret used when PAYSTACK_SECRET_KEY is unset or empty. */
  const DefaultSecretKey: string := "sk_test_mock"

  /** `process.env.PAYSTACK_SECRET_KEY || 'sk_test_mock'`. */
  function SecretKey(env: Option<string>): (key: string)
    ensures env.Some? && env.value != "" ==> key == env.value
    ensures env.None? || env.value == "" ==> key == DefaultSecretKey
  {
    if env.Some? && env.value != "" then env.value else DefaultSecretKey
  }

  /** `Math.round`: the nearest integer, halves rounded up. */
  function Round(x: real): (n: int)
    ensures x - 0.5 < n as real <= x + 0.5
  {
    (x + 0.5).Floor
  }

  /** A decimal amount in major units converted to the gateway's minor units. */
  function ToMinorUnits(amount: real): (m: int)
    ensures amount * 100.0 - 0.5 < m as real <= amount * 100.0 + 0.5
  {
    Round(amount * 100.0)
  }

  /** An amount held exactly in minor units (two decimal places) survives the
      conversion unchanged. */
  lemma MinorUnitsRoundTrip(minor: int)
    ensures ToMinorUnits(minor as real / 100.0) == minor
  {
    assert (minor as real / 100.0) * 100.0 == minor as real;
  }

  /** The metadata attached to a transaction and echoed back by the webhook. */
  datatype Metadata = Metadata(orderId: Option<nat>, storeId: Option<string>)

  /** The JSON body posted to /transaction/initialize. */
  datatype InitParams = InitParams(email: string, amount: int, metadata: Metadata, callbackUrl: Option<string>)

  /** What the gateway answers: a hosted-payment URL and a reference, or a
      failure (network error or non-2xx status, which axios throws). */
  datatype GatewayReply = Initialized(authorizationUrl: string, reference: string) | InitFailed

  /** The request parameters of `initializeTransaction`. */
  function InitializeParams(email: string, amount: real, metadata: Metadata, callbackUrl: Option<string>): (p: InitParams)
    ensures p.email == email && p.metadata == metadata
    ensures p.amount == ToMinorUnits(amount)
    ensures p.callbackUrl.Some? <==> callbackUrl.Some? && callbackUrl.value != ""
    ensures p.callbackUrl.Some? ==> p.callbackUrl == callbackUrl
  {
    InitParams(email, ToMinorUnits(amount), metadata,
      if callbackUrl.Some? && callbackUrl.value != "" then callbackUrl else None)
  }

  /** `initializeTransaction`: build the parameters and post them; `post`
      stands for the HTTP round trip. The gateway receives the e-mail, the
      metadata, the amount in minor units, and the callback URL only when it
      is given and non-empty. */
  function InitializeTransaction(post: InitParams -> GatewayReply, email: string, amount: real,
                                 metadata: Metadata, callbackUrl: Option<string>): (reply: GatewayReply)
    ensures callbackUrl.Some? && callbackUrl.value != "" ==>
      reply == post(InitParams(email, ToMinorUnits(amount), metadata, callbackUrl))
    ensures callbackUrl.None? || callbackUrl.value == "" ==>
      reply == post(InitParams(email, ToMinorUnits(amount), metadata, None))
  {
    post(InitializeParams(email, amount, metadata, callbackUrl))
  }

  /** A hexadecimal digit in lower case, for 0 <= d < 16. */
  function HexDigit(d: int): (c: char)
    requires 0 <= d < 16
  {
    if d < 10 then ('0' as int + d) as char else ('a' as int + d - 10) as char
  }

  /** How `JSON.stringify` writes one character inside a string literal: `"`
      and `\` escaped, the short escapes for backspace, form feed, newline,
      carriage return and tab, `\u00xx` for the other control characters,
      anything else as itself. */
  function EscapeChar(c: char): (e: string)
    ensures |e| >= 1
    ensures (c as int >= 0x20 && c != '"' && c != '\\') <==> e == [c]
  {
    if c == '"' then "\\\""
    else if c == '\\' then "\\\\"
    else if c as int == 0x08 then "\\b"
    else if c as int == 0x0c then "\\f"
    else if c == '\n' then "\\n"
    else if c == '\r' then "\\r"
    else if c == '\t' then "\\t"
    else if c as int < 0x20 then "\\u00" + [HexDigit(c as int / 16), HexDigit(c as int % 16)]
    else [c]
  }

  /** The characters of a string literal as `JSON.stringify` writes them. */
  function JsonEscape(s: string): (e: string)
    ensures |e| >= |s|
    decreases |s|
  {
    if s == [] then [] else EscapeChar(s[0]) + JsonEscape(s[1..])
  }

  /** `JSON.stringify` of a string: the escaped text between double quotes. */
  function JsonStringify(s: string): (j: string)
    ensures |j| >= |s| + 2
    ensures j[0] == '"' && j[|j| - 1] == '"'
  {
    "\"" + JsonEscape(s) + "\""
  }

  /** `verifyWebhookSignature`: the hex HMAC-SHA512 under the secret key,
      `hmacHex(key, text)`, is taken over `JSON.stringify(body)` and compared
      with the header. */
  function VerifyWebhookSignature(hmacHex: (string, string) -> string, secretKey: string,
                                  signature: Option<string>, body: string): (ok: bool)
  {
    signature == Some(hmacHex(secretKey, JsonStringify(body)))
  }

  /** The body is a string, so the digest covers its JSON-quoted form, which
      is never the body itself. For an HMAC without collisions, the digest of
      the raw body, which is what the gateway signs, is refused, and only the
      digest of the quoted text is accepted. */
  lemma RawBodyDigestRefused(hmacHex: (string, string) -> string, secretKey: string, body: string)
    requires forall p, q :: hmacHex(secretKey, p) == hmacHex(secretKey, q) ==> p == q
    ensures !VerifyWebhookSignature(hmacHex, secretKey, Some(hmacHex(secretKey, body)), body)
    ensures VerifyWebhookSignature(hmacHex, secretKey, Some(hmacHex(secretKey, JsonStringify(body))), body)
  {
    assert |JsonStringify(body)| != |body|;
  }

  /** A JSON text with no character that needs escaping is quoted as it is. */
  lemma {:induction false} PlainTextQuotedVerbatim(s: string)
    requires forall i :: 0 <= i < |s| ==> s[i] as int >= 0x20 && s[i] != '"' && s[i] != '\\'
    ensures JsonEscape(s) == s
    ensures JsonStringify(s) == "\"" + s + "\""
    decreases |s|
  {
    if s != [] {
      PlainTextQuotedVerbatim(s[1..]);
      assert JsonEscape(s) == [s[0]] + s[1..];
    }
  }
}
