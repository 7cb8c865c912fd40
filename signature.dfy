/**
 * Authentication of code-host webhook deliveries by the `X-Hub-Signature-256`
 * header: `sha256=` followed by the lowercase hex HMAC-SHA256 (RFC 2104) of
 * the raw request body under the shared secret.
 */
module Signature {
  import opened PyStr
  import opened Relay

  const SignatureHeader: string := "X-Hub-Signature-256"
  const SignaturePrefix: string := "sha256="

  /**
   * HMAC-SHA256 of a body under a secret, as lowercase hex. The digest itself
   * is computed outside the model and passed in by the caller.
   */
  type Hmac = (string, seq<byte>) -> string

  /**
   * `verify_forgejo_webhook`: with no secret configured every delivery is
   * accepted; otherwise exactly the deliveries whose header is the prefix
   * followed by the expected digest.
   */
  function VerifyForgejoWebhook(secret: string, headers: map<string, string>, body: seq<byte>, hmac: Hmac): (ok: bool)
    ensures secret == "" ==> ok
    ensures secret != "" ==>
      (ok <==> SignatureHeader in headers && headers[SignatureHeader] == SignaturePrefix + hmac(secret, body))
  {
    if secret == "" then true
    else if SignatureHeader !in headers || headers[SignatureHeader] == "" then false
    else
      var header := headers[SignatureHeader];
      if !StartsWith(header, SignaturePrefix) then false
      else
        assert header == SignaturePrefix + header[|SignaturePrefix|..];
        header[|SignaturePrefix|..] == hmac(secret, body)
  }

  /** A delivery signed with the configured secret over its own body is accepted. */
  lemma SignedDeliveryAccepted(secret: string, body: seq<byte>, hmac: Hmac, headers: map<string, string>)
    requires SignatureHeader in headers && headers[SignatureHeader] == SignaturePrefix + hmac(secret, body)
    ensures VerifyForgejoWebhook(secret, headers, body, hmac)
  {
  }

  /**
   * A signature made over one body does not authenticate another body whose
   * digest differs: a tampered delivery is rejected once a secret is set.
   */
  lemma TamperedBodyRejected(secret: string, signed: seq<byte>, sent: seq<byte>, hmac: Hmac, headers: map<string, string>)
    requires secret != ""
    requires SignatureHeader in headers && headers[SignatureHeader] == SignaturePrefix + hmac(secret, signed)
    requires hmac(secret, sent) != hmac(secret, signed)
    ensures !VerifyForgejoWebhook(secret, headers, sent, hmac)
  {
  }

  /** Without a signature header nothing is accepted once a secret is set. */
  lemma UnsignedRejected(secret: string, body: seq<byte>, hmac: Hmac, headers: map<string, string>)
    requires secret != "" && SignatureHeader !in headers
    ensures !VerifyForgejoWebhook(secret, headers, body, hmac)
  {
  }
}
