/**
 * The webhook trigger: a trigger that verifies signed inbound requests and emits accepted
 * payloads. Unlike the connector it has no `validate_config`, so an unknown hash algorithm only
 * shows when a signature is checked. Its `_start`/`_stop` only log.
 */
module WebhookTrigger {
  import opened Results
  import opened Json
  import opened Bytes
  import opened Lifecycle
  import opened Signature
  import opened TriggerBase

  class WebhookTrigger {
    const base: Trigger
    const cfg: Config

    constructor (triggerId: string, secret: Option<string>, name: Option<string>, headerName: string, hashAlg: string)
      ensures fresh(base) && base.triggerId == triggerId && base.name == DefaultName(triggerId, name)
      ensures base.status == Stopped && base.callbacks == []
      ensures cfg == Config(secret, headerName, hashAlg)
    {
      base := new Trigger(triggerId, name);
      cfg := Config(secret, headerName, hashAlg);
    }

    method OnEvent(callback: CallbackId)
      modifies base
      ensures base.callbacks == old(base.callbacks) + [callback] && base.status == old(base.status)
    {
      base.OnEvent(callback);
    }

    method Start() returns (r: Outcome)
      modifies base
      ensures r == Pass && base.status == AfterStart(old(base.status), Pass)
      ensures base.callbacks == old(base.callbacks)
    {
      var invoked;
      r, invoked := base.Start(Pass);
    }

    method Stop() returns (r: Outcome)
      modifies base
      ensures r == Pass && base.status == AfterStop(old(base.status), Pass)
      ensures base.callbacks == old(base.callbacks)
    {
      var invoked;
      r, invoked := base.Stop(Pass);
    }

    /**
     * `handle_request`: a rejected request returns the rejection and emits nothing; an accepted
     * one emits the payload once per subscriber with the headers as metadata and returns the
     * acceptance carrying the trigger id, unless a subscriber raised.
     */
    method HandleRequest(payload: Object, rawBody: Option<seq<Byte>>, headers: Option<map<string, string>>,
                         now: int, hmac: Hmac, react: Reaction)
      returns (response: Result<Object>, delivered: seq<Delivery>)
      ensures var h := HeadersOrEmpty(headers);
        match Decide(cfg, rawBody, h, hmac)
        case Reject => response == Ok(RejectedResponse) && delivered == []
        case Raise(e) => response == Err(e) && delivered == []
        case Accept =>
          && |delivered| == |base.callbacks|
          && (forall i :: 0 <= i < |base.callbacks| ==>
                delivered[i] == Delivery(base.callbacks[i], Event(base.triggerId, payload, now, map["headers" := HeadersJson(h)])))
          && (response.Ok? ==> response.value == AcceptedResponse("trigger_id", base.triggerId))
          && (response.Ok? <==> forall i :: 0 <= i < |base.callbacks| ==>
                react(base.callbacks[i], Event(base.triggerId, payload, now, map["headers" := HeadersJson(h)])).Pass?)
    {
      var h := HeadersOrEmpty(headers);
      var d := Decide(cfg, rawBody, h, hmac);
      if d == Reject {
        return Ok(RejectedResponse), [];
      } else if d.Raise? {
        return Err(d.error), [];
      }
      var failure;
      delivered, failure := base.Emit(payload, Some(map["headers" := HeadersJson(h)]), now, react);
      if failure.Fail? {
        return Err(failure.message), delivered;
      }
      response := Ok(AcceptedResponse("trigger_id", base.triggerId));
    }
  }

  /**
   * A started trigger with a secret and one subscriber accepts a correctly signed request and
   * delivers exactly one event; a request signed `"sha256=invalid"` is rejected and delivers none.
   */
  method SignedRequestScenario(secret: string, payload: Object, raw: seq<Byte>, hmac: Hmac)
    returns (accepted: Result<Object>, events: seq<Delivery>, rejected: Result<Object>, rejectedEvents: seq<Delivery>)
    requires secret != "" && IsHexDigest(hmac(secret, raw, "sha256"))
    ensures accepted == Ok(AcceptedResponse("trigger_id", "webhook"))
    ensures |events| == 1 && events[0].event.payload == payload
    ensures rejected == Ok(RejectedResponse) && rejectedEvents == []
  {
    var t := new WebhookTrigger("webhook", Some(secret), None, DefaultHeaderName, DefaultHashAlg);
    t.OnEvent(0);
    var r := t.Start();
    CorrectAcceptedBogusRejected(secret, raw, hmac);
    var signature := "sha256=" + hmac(secret, raw, "sha256");
    accepted, events := t.HandleRequest(payload, Some(raw), Some(map[DefaultHeaderName := signature]), 0, hmac,
      (cb: CallbackId, e: Event) => Pass);
    rejected, rejectedEvents := t.HandleRequest(payload, Some(raw), Some(map[DefaultHeaderName := "sha256=invalid"]), 0, hmac,
      (cb: CallbackId, e: Event) => Pass);
    r := t.Stop();
  }
}
