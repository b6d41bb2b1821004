/**
 * The webhook connector: a connector that verifies signed inbound requests and emits accepted
 * payloads. Its `_start`/`_stop` only log, so they always succeed.
 */
module WebhookConnector {
  import opened Results
  import opened Text
  import opened Json
  import opened Bytes
  import opened Lifecycle
  import opened Signature
  import opened ConnectorBase

  /**
   * `validate_config`: the header name must be non-empty and the algorithm a name `hashlib` has,
   * whether or not HMAC can use it. (The secret is a string by its type here, so the first check
   * cannot fail.)
   */
  function ValidateConfig(cfg: Config): (o: Outcome)
    ensures o.Pass? <==> cfg.headerName != "" && cfg.hashAlg in HashlibAttributes
  {
    if cfg.headerName == "" then Fail("ValueError: Webhook header_name must be set")
    else if cfg.hashAlg !in HashlibAttributes then Fail("ValueError: Unsupported hash algorithm: " + cfg.hashAlg)
    else Pass
  }

  /**
   * Once a configuration validates, checking an ASCII signature raises exactly when a secret and
   * a signature are given and the validated name is not an HMAC digest.
   */
  lemma ValidConfigNeverRaises(cfg: Config, body: seq<Byte>, signature: Option<string>, hmac: Hmac)
    requires ValidateConfig(cfg).Pass?
    requires signature.Some? ==> IsAscii(signature.value)
    ensures ValidateSignature(cfg, body, signature, hmac).Err? <==>
      HasSecret(cfg) && signature.Some? && signature.value != "" && cfg.hashAlg !in HashAlgorithms
  {
  }

  /** `shake_128` passes `validate_config`, yet every signed request then raises in `validate_signature`. */
  lemma ShakeValidatesThenRaises(secret: string, headerName: string, body: seq<Byte>, signature: string, hmac: Hmac)
    requires secret != "" && headerName != "" && signature != ""
    ensures var cfg := Config(Some(secret), headerName, "shake_128");
      ValidateConfig(cfg).Pass? && ValidateSignature(cfg, body, Some(signature), hmac) == Err(NotHmacDigest("shake_128"))
  {
  }

  class WebhookConnector {
    const base: Connector
    const cfg: Config

    constructor (connectorId: string, secret: Option<string>, name: Option<string>, headerName: string, hashAlg: string)
      ensures fresh(base) && base.connectorId == connectorId && base.name == DefaultName(connectorId, name)
      ensures base.status == Stopped && base.callbacks == [] && base.lastError == None
      ensures cfg == Config(secret, headerName, hashAlg)
    {
      base := new Connector(connectorId, name);
      cfg := Config(secret, headerName, hashAlg);
    }

    /** `start`, where `validate_config` is the check above and `_start` cannot fail. */
    method Start() returns (r: Outcome, invoked: seq<Hook>)
      modifies base
      ensures StartIsNoOp(old(base.status)) ==> r == Pass && invoked == [] && base.status == old(base.status)
      ensures !StartIsNoOp(old(base.status)) ==> (r == ValidateConfig(cfg)
        && (base.status == Running <==> r.Pass?) && (base.status == Error <==> r.Fail?)
        && invoked != [] && invoked[0] == ValidateHook && (StartHook in invoked <==> r.Pass?))
    {
      r, invoked := base.Start(ValidateConfig(cfg), Pass);
    }

    /** `stop`, where `_stop` cannot fail. */
    method Stop() returns (r: Outcome, invoked: seq<Hook>)
      modifies base
      ensures r == Pass && base.status == AfterStop(old(base.status), Pass)
    {
      r, invoked := base.Stop(Pass);
    }

    /**
     * `handle_request`: a rejected request returns the rejection and emits nothing; an accepted
     * one emits the payload with the headers as metadata and returns the acceptance, unless a
     * subscriber raised.
     */
    method HandleRequest(payload: Object, rawBody: Option<seq<Byte>>, headers: Option<map<string, string>>,
                         now: int, hmac: Hmac, react: Reaction)
      returns (response: Result<Object>, delivered: seq<Delivery>)
      ensures var h := HeadersOrEmpty(headers);
        match Decide(cfg, rawBody, h, hmac)
        case Reject => response == Ok(RejectedResponse) && delivered == []
        case Raise(e) => response == Err(e) && delivered == []
        case Accept =>
          && |delivered| == |base.callbacks|
          && (forall i :: 0 <= i < |base.callbacks| ==>
                delivered[i] == Delivery(base.callbacks[i], Event(base.connectorId, payload, now, map["headers" := HeadersJson(h)])))
          && (response.Ok? ==> response.value == AcceptedResponse("connector_id", base.connectorId))
          && (response.Ok? <==> forall i :: 0 <= i < |base.callbacks| ==>
                react(base.callbacks[i], Event(base.connectorId, payload, now, map["headers" := HeadersJson(h)])).Pass?)
    {
      var h := HeadersOrEmpty(headers);
      var d := Decide(cfg, rawBody, h, hmac);
      if d == Reject {
        return Ok(RejectedResponse), [];
      } else if d.Raise? {
        return Err(d.error), [];
      }
      var failure;
      delivered, failure := base.Emit(payload, Some(map["headers" := HeadersJson(h)]), now, react);
      if failure.Fail? {
        return Err(failure.message), delivered;
      }
      response := Ok(AcceptedResponse("connector_id", base.connectorId));
    }
  }

  /**
   * A connector with the secret `"secret"` and default settings accepts a body signed with that
   * secret.
   */
  method SignedAccepted(payload: Object, raw: seq<Byte>, hmac: Hmac) returns (accepted: Result<Object>)
    requires IsHexDigest(hmac("secret", raw, "sha256"))
    ensures accepted == Ok(AcceptedResponse("connector_id", "webhook"))
  {
    var c := new WebhookConnector("webhook", Some("secret"), None, DefaultHeaderName, DefaultHashAlg);
    CorrectAcceptedBogusRejected("secret", raw, hmac);
    var good := "sha256=" + hmac("secret", raw, "sha256");
    var headers := map[DefaultHeaderName := good];
    assert Decide(c.cfg, Some(raw), headers, hmac) == Accept;
    var delivered;
    accepted, delivered := c.HandleRequest(payload, Some(raw), Some(headers), 0, hmac,
      (cb: CallbackId, e: Event) => Pass);
  }

  /**
   * The same connector rejects the body under `"sha256=bad"` (a SHA-256 hex digest has 64
   * characters), emitting nothing.
   */
  method BadSignatureRejected(payload: Object, raw: seq<Byte>, hmac: Hmac)
    returns (rejected: Result<Object>, emitted: seq<Delivery>)
    requires |hmac("secret", raw, "sha256")| == 64
    ensures rejected == Ok(RejectedResponse) && emitted == []
  {
    var c := new WebhookConnector("webhook", Some("secret"), None, DefaultHeaderName, DefaultHashAlg);
    var headers := map[DefaultHeaderName := "sha256=bad"];
    assert |"sha256=bad"| != |Expected(c.cfg, raw, hmac)|;
    DefaultRejectsOther(c.cfg, raw, "sha256=bad", hmac);
    assert Decide(c.cfg, Some(raw), headers, hmac) == Reject;
    rejected, emitted := c.HandleRequest(payload, Some(raw), Some(headers), 0, hmac,
      (cb: CallbackId, e: Event) => Pass);
  }
}
