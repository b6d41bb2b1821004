/**
 * The webhook signature scheme shared by the webhook connector and the webhook trigger: a
 * request carries `"{alg}={hexdigest}"` in a header, where the digest is HMAC (section 2 of
 * RFC 2104) of the raw body under the shared secret. HMAC itself is an uninterpreted function.
 */
module Signature {
  import opened Results
  import opened Text
  import opened Json
  import opened Bytes

  /** The hex digest HMAC gives for (secret, body, hash algorithm name). */
  type Hmac = (string, seq<Byte>, string) -> string

  /** The hash constructors the model accepts as `getattr(hashlib, alg)`. */
  const HashAlgorithms: set<string> := {
    "md5", "sha1", "sha224", "sha256", "sha384", "sha512",
    "sha3_224", "sha3_256", "sha3_384", "sha3_512", "blake2b", "blake2s"
  }

  /**
   * The names `hasattr(hashlib, name)` holds for, as far as modelled: the hash constructors above
   * and the module's other public attributes, none of which HMAC can use as a digest.
   */
  const HashlibAttributes: set<string> := HashAlgorithms + {
    "shake_128", "shake_256", "new", "pbkdf2_hmac", "scrypt", "file_digest",
    "algorithms_available", "algorithms_guaranteed"
  }

  const DefaultHeaderName: string := "X-GenXAI-Signature"
  const DefaultHashAlg: string := "sha256"

  /** A webhook source's verification settings. */
  datatype Config = Config(secret: Option<string>, headerName: string, hashAlg: string)

  /** `if self.secret`: a secret that is set and non-empty. */
  predicate HasSecret(cfg: Config) {
    cfg.secret.Some? && cfg.secret.value != ""
  }

  /** The header value a correctly signed body carries. */
  function Expected(cfg: Config, body: seq<Byte>, hmac: Hmac): string
    requires HasSecret(cfg)
  {
    cfg.hashAlg + "=" + hmac(cfg.secret.value, body, cfg.hashAlg)
  }

  /**
   * `validate_signature`: with no secret every request passes; with a secret, a missing or empty
   * signature fails and otherwise the signature must equal the expected header value. Looking up
   * an unknown algorithm raises; so does `hmac.new` with a `hashlib` attribute that is not an
   * HMAC digest (`shake_128` has no fixed-length digest, `new` needs a name), and so does
   * `hmac.compare_digest` on a non-ASCII signature, in that order.
   */
  function ValidateSignature(cfg: Config, body: seq<Byte>, signature: Option<string>, hmac: Hmac): (r: Result<bool>)
    ensures !HasSecret(cfg) ==> r == Ok(true)
    ensures HasSecret(cfg) && (signature.None? || signature.value == "") ==> r == Ok(false)
    ensures HasSecret(cfg) && signature.Some? && signature.value != "" ==>
      (r.Ok? <==> cfg.hashAlg in HashAlgorithms && IsAscii(signature.value))
    ensures HasSecret(cfg) && signature.Some? && signature.value != "" && cfg.hashAlg !in HashlibAttributes ==>
      r == Err(NoAttribute(cfg.hashAlg))
    ensures (HasSecret(cfg) && signature.Some? && signature.value != "" && cfg.hashAlg in HashlibAttributes
      && cfg.hashAlg !in HashAlgorithms) ==> r == Err(NotHmacDigest(cfg.hashAlg))
    ensures r == Ok(true) && HasSecret(cfg) ==> signature == Some(Expected(cfg, body, hmac))
    ensures (HasSecret(cfg) && cfg.hashAlg in HashAlgorithms && signature == Some(Expected(cfg, body, hmac))
      && IsAscii(Expected(cfg, body, hmac))) ==> r == Ok(true)
  {
    if !HasSecret(cfg) then Ok(true)
    else if signature.None? || signature.value == "" then Ok(false)
    else if cfg.hashAlg !in HashlibAttributes then Err(NoAttribute(cfg.hashAlg))
    else if cfg.hashAlg !in HashAlgorithms then Err(NotHmacDigest(cfg.hashAlg))
    else if !IsAscii(signature.value) then Err("TypeError: comparing strings with non-ASCII characters is not supported")
    else Ok(Expected(cfg, body, hmac) == signature.value)
  }

  /** The error `getattr(hashlib, alg)` raises for a name the module lacks. */
  function NoAttribute(alg: string): string {
    "AttributeError: module 'hashlib' has no attribute '" + alg + "'"
  }

  /** The error HMAC raises on a `hashlib` attribute that is not a fixed-length hash constructor. */
  function NotHmacDigest(alg: string): string {
    "TypeError: hashlib." + alg + " is not a digest HMAC can use"
  }

  predicate IsHexDigit(c: char) {
    '0' <= c <= '9' || 'a' <= c <= 'f'
  }

  predicate IsHexDigest(s: string) {
    forall i :: 0 <= i < |s| ==> IsHexDigit(s[i])
  }

  /**
   * With the default algorithm, a body signed with the secret is accepted and the header
   * `"sha256=invalid"` is rejected, since `invalid` is not a hex digest.
   */
  lemma CorrectAcceptedBogusRejected(secret: string, body: seq<Byte>, hmac: Hmac)
    requires secret != "" && IsHexDigest(hmac(secret, body, "sha256"))
    ensures var cfg := Config(Some(secret), DefaultHeaderName, DefaultHashAlg);
      ValidateSignature(cfg, body, Some("sha256=" + hmac(secret, body, "sha256")), hmac) == Ok(true)
      && ValidateSignature(cfg, body, Some("sha256=invalid"), hmac) == Ok(false)
  {
    var cfg := Config(Some(secret), DefaultHeaderName, DefaultHashAlg);
    var d := hmac(secret, body, "sha256");
    assert IsAscii("sha256=" + d) by {
      forall i | 0 <= i < |"sha256=" + d|
        ensures ("sha256=" + d)[i] as int < 128
      {
        if i >= 7 {
          assert ("sha256=" + d)[i] == d[i - 7];
        }
      }
    }
    assert cfg.hashAlg in HashAlgorithms;
    assert Expected(cfg, body, hmac) == "sha256=" + d;
    assert "sha256=invalid" != Expected(cfg, body, hmac) by {
      assert ("sha256=" + d)[7..] == d;
      assert "sha256=invalid"[7..] == "invalid";
      assert !IsHexDigit("invalid"[0]);
    }
    assert IsAscii("sha256=invalid") by {
      assert forall i | 0 <= i < |"sha256=invalid"| :: "sha256=invalid"[i] as int < 128;
    }
    DefaultRejectsOther(cfg, body, "sha256=invalid", hmac);
  }

  /** Under the default algorithm, a non-empty ASCII signature other than the expected one is rejected. */
  lemma DefaultRejectsOther(cfg: Config, body: seq<Byte>, signature: string, hmac: Hmac)
    requires HasSecret(cfg) && cfg.hashAlg == DefaultHashAlg
    requires signature != "" && IsAscii(signature) && signature != Expected(cfg, body, hmac)
    ensures ValidateSignature(cfg, body, Some(signature), hmac) == Ok(false)
  {
    assert cfg.hashAlg in HashAlgorithms;
  }

  /** What a webhook source does with a request. */
  datatype Decision = Accept | Reject | Raise(error: string)

  /**
   * `handle_request`'s check: only a source with a secret, given the raw body, verifies the
   * signature read from the configured header; a request without a raw body is accepted unchecked.
   */
  function Decide(cfg: Config, rawBody: Option<seq<Byte>>, headers: map<string, string>, hmac: Hmac): (d: Decision)
    ensures !HasSecret(cfg) || rawBody.None? ==> d == Accept
    ensures d == Reject <==> (HasSecret(cfg) && rawBody.Some?
      && ValidateSignature(cfg, rawBody.value, HeaderValue(headers, cfg.headerName), hmac) == Ok(false))
    ensures d == Accept && HasSecret(cfg) && rawBody.Some? ==>
      ValidateSignature(cfg, rawBody.value, HeaderValue(headers, cfg.headerName), hmac) == Ok(true)
  {
    if HasSecret(cfg) && rawBody.Some? then
      match ValidateSignature(cfg, rawBody.value, HeaderValue(headers, cfg.headerName), hmac)
      case Ok(valid) => if valid then Accept else Reject
      case Err(e) => Raise(e)
    else Accept
  }

  /** `headers.get(name)`. */
  function HeaderValue(headers: map<string, string>, name: string): (v: Option<string>)
    ensures v.Some? <==> name in headers
    ensures v.Some? ==> v.value == headers[name]
  {
    if name in headers then Some(headers[name]) else None
  }

  /** `headers or {}`. */
  function HeadersOrEmpty(headers: Option<map<string, string>>): map<string, string> {
    if headers.Some? then headers.value else map[]
  }

  /** The headers as the JSON object that goes into the event metadata. */
  function HeadersJson(headers: map<string, string>): (j: Json)
    ensures j.JObj? && j.fields.Keys == headers.Keys
    ensures forall k :: k in headers ==> j.fields[k] == JStr(headers[k])
  {
    JObj(map k | k in headers :: JStr(headers[k]))
  }

  const RejectedResponse: Object := map["status" := JStr("rejected"), "reason" := JStr("invalid signature")]

  /** `{"status": "accepted", <idKey>: id}`. */
  function AcceptedResponse(idKey: string, id: string): Object {
    map["status" := JStr("accepted"), idKey := JStr(id)]
  }
}
