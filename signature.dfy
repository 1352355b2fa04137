/**
 * Authentication of the check-in provider's webhook: an HMAC-SHA256 over the
 * timestamp followed by the token, keyed with the shared API key, compared in
 * constant time against the signature the request carries.
 */
module Signature {
  import Compare

  /** HMAC-SHA256 hex digest of (key, message); the hashing itself is not modelled. */
  type HmacHex = (string, string) -> string

  /** The signed message: the timestamp with the token appended, no separator. */
  function SignedMessage(timestamp: string, token: string): (m: string)
    ensures |m| == |timestamp| + |token|
    ensures m[..|timestamp|] == timestamp && m[|timestamp|..] == token
  {
    timestamp + token
  }

  /** The request's signature is the hex HMAC of its timestamp and token. */
  predicate IsAuthentic(hmac: HmacHex, apiKey: string, token: string, timestamp: string, signature: string)
  {
    signature == hmac(apiKey, SignedMessage(timestamp, token))
  }

  method VerifyMessage(hmac: HmacHex, apiKey: string, token: string, timestamp: string, signature: string)
    returns (ok: bool)
    ensures ok <==> signature == hmac(apiKey, timestamp + token)
  {
    var expected := hmac(apiKey, SignedMessage(timestamp, token));
    ghost var probes;
    ok, probes := Compare.ConstantTimeCompare(signature, expected);
  }

  /** Changing any one character of a valid signature makes it invalid. */
  lemma TamperedSignatureRejected(hmac: HmacHex, apiKey: string, token: string, timestamp: string,
                                  signature: string, k: nat, c: char)
    requires IsAuthentic(hmac, apiKey, token, timestamp, signature)
    requires k < |signature| && c != signature[k]
    ensures !IsAuthentic(hmac, apiKey, token, timestamp, signature[k := c])
  {
  }

  /**
   * The signature does not bind where the timestamp ends and the token
   * begins: moving the timestamp's last character to the front of the token
   * leaves a valid signature valid.
   */
  lemma BoundaryNotAuthenticated(hmac: HmacHex, apiKey: string, token: string, timestamp: string, signature: string)
    requires IsAuthentic(hmac, apiKey, token, timestamp, signature)
    requires |timestamp| > 0
    ensures IsAuthentic(hmac, apiKey, [timestamp[|timestamp| - 1]] + token, timestamp[..|timestamp| - 1], signature)
  {
    var n := |timestamp| - 1;
    assert timestamp[..n] + ([timestamp[n]] + token) == timestamp + token;
  }
}
