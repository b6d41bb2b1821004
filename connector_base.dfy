/**
 * The connector base class: lifecycle status, the last error, subscribers, and the health
 * payload. The concrete connector's `validate_config` and `_start`/`_stop` are abstract actions,
 * passed in as the outcome each would have; the asyncio lock makes `start` and `stop` atomic
 * steps here.
 */
module ConnectorBase {
  import opened Results
  import opened Json
  import opened Lifecycle

  /** The payload `health_check` returns. */
  datatype Health = Health(connectorId: string, status: string, lifecycle: string, lastError: Option<string>)

  /** The health payload of a connector in status `s` with last error `lastError`. */
  function HealthReport(connectorId: string, s: Status, lastError: Option<string>): (h: Health)
    ensures h.status == "ok" <==> s == Running
    ensures h.status == "ok" || h.status == "not_running"
    ensures h.lifecycle == StatusValue(s) && h.connectorId == connectorId && h.lastError == lastError
  {
    Health(connectorId, if s == Running then "ok" else "not_running", StatusValue(s), lastError)
  }

  /** `name or connector_id`. */
  function DefaultName(id: string, name: Option<string>): (n: string)
    ensures name.Some? && name.value != "" ==> n == name.value
    ensures name.None? || name.value == "" ==> n == id
  {
    if name.Some? && name.value != "" then name.value else id
  }

  class Connector {
    const connectorId: string
    const name: string
    var status: Status
    var callbacks: seq<CallbackId>
    var lastError: Option<string>
    var lastHealthcheck: Option<string>

    /** A new connector is stopped, has no subscribers and no error; its name defaults to its id. */
    constructor (connectorId: string, name: Option<string>)
      ensures this.connectorId == connectorId && this.name == DefaultName(connectorId, name)
      ensures status == Stopped && callbacks == [] && lastError == None && lastHealthcheck == None
    {
      this.connectorId := connectorId;
      this.name := DefaultName(connectorId, name);
      status := Stopped;
      callbacks := [];
      lastError := None;
      lastHealthcheck := None;
    }

    /** `on_event`: the subscriber goes last. */
    method OnEvent(callback: CallbackId)
      modifies this
      ensures callbacks == old(callbacks) + [callback]
      ensures status == old(status) && lastError == old(lastError) && lastHealthcheck == old(lastHealthcheck)
    {
      callbacks := callbacks + [callback];
    }

    /**
     * `emit`: every subscriber receives one event carrying this connector's id, the payload, and
     * the metadata or `{}`; with no subscriber nothing is delivered and nothing fails.
     */
    method Emit(payload: Object, metadata: Option<Object>, now: int, react: Reaction)
      returns (delivered: seq<Delivery>, r: Outcome)
      ensures |delivered| == |callbacks|
      ensures forall i :: 0 <= i < |callbacks| ==>
        delivered[i] == Delivery(callbacks[i], Event(connectorId, payload, now, MetadataOrEmpty(metadata)))
      ensures callbacks == [] ==> r == Pass
      ensures r.Fail? <==> exists i :: (0 <= i < |callbacks|
        && react(callbacks[i], Event(connectorId, payload, now, MetadataOrEmpty(metadata))).Fail?)
    {
      var e := Event(connectorId, payload, now, MetadataOrEmpty(metadata));
      if callbacks == [] {
        return [], Pass;
      }
      delivered, r := FanOut(callbacks, e, react);
    }

    /**
     * `start`: a no-op when running or starting; otherwise `validate_config` runs, then `_start`
     * only if validation passed. Success leaves the connector running with no error; a failure
     * leaves it in error with the message recorded, and is raised to the caller.
     */
    method Start(validate: Outcome, start: Outcome) returns (r: Outcome, invoked: seq<Hook>)
      modifies this
      ensures StartIsNoOp(old(status)) ==>
        r == Pass && invoked == [] && status == old(status) && lastError == old(lastError)
      ensures !StartIsNoOp(old(status)) ==>
        && invoked == (if validate.Fail? then [ValidateHook] else [ValidateHook, StartHook])
        && r == (if validate.Fail? then validate else start)
        && status == AfterStart(old(status), r)
        && lastError == (if r.Pass? then None else Some(r.message))
      ensures callbacks == old(callbacks) && lastHealthcheck == old(lastHealthcheck)
    {
      if StartIsNoOp(status) {
        return Pass, [];
      }
      status := Starting;
      invoked := [ValidateHook];
      if validate.Fail? {
        status := Error;
        lastError := Some(validate.message);
        return validate, invoked;
      }
      invoked := invoked + [StartHook];
      if start.Fail? {
        status := Error;
        lastError := Some(start.message);
        return start, invoked;
      }
      status := Running;
      lastError := None;
      r := Pass;
    }

    /**
     * `stop`: a no-op when stopped or stopping; otherwise `_stop` runs, leaving the connector
     * stopped with no error, or in error with the message recorded and raised.
     */
    method Stop(stop: Outcome) returns (r: Outcome, invoked: seq<Hook>)
      modifies this
      ensures StopIsNoOp(old(status)) ==>
        r == Pass && invoked == [] && status == old(status) && lastError == old(lastError)
      ensures !StopIsNoOp(old(status)) ==>
        && invoked == [StopHook] && r == stop
        && status == AfterStop(old(status), r)
        && lastError == (if r.Pass? then None else Some(r.message))
      ensures callbacks == old(callbacks) && lastHealthcheck == old(lastHealthcheck)
    {
      if StopIsNoOp(status) {
        return Pass, [];
      }
      status := Stopping;
      invoked := [StopHook];
      if stop.Fail? {
        status := Error;
        lastError := Some(stop.message);
        return stop, invoked;
      }
      status := Stopped;
      lastError := None;
      r := Pass;
    }

    /** `health_check`: reports the current state and stamps the time of the check. */
    method HealthCheck(now: string) returns (h: Health)
      modifies this
      ensures h == HealthReport(connectorId, status, lastError)
      ensures lastHealthcheck == Some(now)
      ensures status == old(status) && lastError == old(lastError) && callbacks == old(callbacks)
    {
      h := HealthReport(connectorId, status, lastError);
      lastHealthcheck := Some(now);
    }
  }
}
