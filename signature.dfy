/**
 * verifySignature: the check of the `X-Hub-Signature-256` header that
 * authenticates a notification. The keyed hash itself (HMAC-SHA256 of
 * RFC 2104, written as lower-case hex) is a foreign primitive; it is a
 * parameter `hmacHex(secret, payload)` here, and only the formatting and the
 * comparison around it are modelled.
 */
module Signature {
  import opened Wrappers

  /** The text that precedes the hex digest in the header. */
  const Prefix := "sha256="

  /**
   * True when the header is present and is exactly "sha256=" followed by
   * the hex digest of the payload under the secret. Read the other way: the
   * header splits into the prefix and a remainder, and the remainder must be
   * the digest; a missing header is never valid.
   */
  function VerifySignature(hmacHex: (string, string) -> string, secret: string, payload: string, signature: Option<string>): (ok: bool)
    ensures ok <==>
      && signature.Some?
      && |signature.value| >= |Prefix|
      && signature.value[..|Prefix|] == Prefix
      && signature.value[|Prefix|..] == hmacHex(secret, payload)
  {
    if signature.Some? && |signature.value| >= |Prefix| then
      assert signature.value == signature.value[..|Prefix|] + signature.value[|Prefix|..];
      signature == Some(Prefix + hmacHex(secret, payload))
    else
      false
  }

  /** The correctly formatted digest is accepted, and it is the only string that is. */
  lemma OnlyTheDigestIsAccepted(hmacHex: (string, string) -> string, secret: string, payload: string, header: string)
    ensures VerifySignature(hmacHex, secret, payload, Some(Prefix + hmacHex(secret, payload)))
    ensures VerifySignature(hmacHex, secret, payload, Some(header)) ==> header == Prefix + hmacHex(secret, payload)
  {
  }

  /** A request without the header is never authentic. */
  lemma MissingHeaderIsRejected(hmacHex: (string, string) -> string, secret: string, payload: string)
    ensures !VerifySignature(hmacHex, secret, payload, None)
  {
  }
}
