/**
 * The trigger base class: the same lifecycle as a connector, without `validate_config` and
 * without a recorded last error. The concrete trigger's `_start`/`_stop` are abstract actions,
 * passed in as the outcome each would have; `start` and `stop` are atomic steps.
 */
module TriggerBase {
  import opened Results
  import opened Json
  import opened Lifecycle

  /** `name or trigger_id`. */
  function DefaultName(id: string, name: Option<string>): (n: string)
    ensures name.Some? && name.value != "" ==> n == name.value
    ensures name.None? || name.value == "" ==> n == id
  {
    if name.Some? && name.value != "" then name.value else id
  }

  class Trigger {
    const triggerId: string
    const name: string
    var status: Status
    var callbacks: seq<CallbackId>

    /** A new trigger is stopped with no subscribers; its name defaults to its id. */
    constructor (triggerId: string, name: Option<string>)
      ensures this.triggerId == triggerId && this.name == DefaultName(triggerId, name)
      ensures status == Stopped && callbacks == []
    {
      this.triggerId := triggerId;
      this.name := DefaultName(triggerId, name);
      status := Stopped;
      callbacks := [];
    }

    /** `on_event`: the subscriber goes last. */
    method OnEvent(callback: CallbackId)
      modifies this
      ensures callbacks == old(callbacks) + [callback] && status == old(status)
    {
      callbacks := callbacks + [callback];
    }

    /**
     * `emit`: every subscriber receives one event carrying this trigger's id, the payload, and
     * the metadata or `{}`; with no subscriber it is a silent no-op.
     */
    method Emit(payload: Object, metadata: Option<Object>, now: int, react: Reaction)
      returns (delivered: seq<Delivery>, r: Outcome)
      ensures |delivered| == |callbacks|
      ensures forall i :: 0 <= i < |callbacks| ==>
        delivered[i] == Delivery(callbacks[i], Event(triggerId, payload, now, MetadataOrEmpty(metadata)))
      ensures callbacks == [] ==> r == Pass
      ensures r.Fail? <==> exists i :: (0 <= i < |callbacks|
        && react(callbacks[i], Event(triggerId, payload, now, MetadataOrEmpty(metadata))).Fail?)
    {
      var e := Event(triggerId, payload, now, MetadataOrEmpty(metadata));
      if callbacks == [] {
        return [], Pass;
      }
      delivered, r := FanOut(callbacks, e, react);
    }

    /**
     * `start`: a no-op when running or starting; otherwise `_start` runs and the trigger ends
     * running, or in error with the failure raised to the caller.
     */
    method Start(start: Outcome) returns (r: Outcome, invoked: seq<Hook>)
      modifies this
      ensures StartIsNoOp(old(status)) ==> r == Pass && invoked == [] && status == old(status)
      ensures !StartIsNoOp(old(status)) ==> invoked == [StartHook] && r == start
      ensures status == AfterStart(old(status), r)
      ensures callbacks == old(callbacks)
    {
      if StartIsNoOp(status) {
        return Pass, [];
      }
      status := Starting;
      invoked := [StartHook];
      if start.Fail? {
        status := Error;
        return start, invoked;
      }
      status := Running;
      r := Pass;
    }

    /**
     * `stop`: a no-op when stopped or stopping; otherwise `_stop` runs and the trigger ends
     * stopped, or in error with the failure raised.
     */
    method Stop(stop: Outcome) returns (r: Outcome, invoked: seq<Hook>)
      modifies this
      ensures StopIsNoOp(old(status)) ==> r == Pass && invoked == [] && status == old(status)
      ensures !StopIsNoOp(old(status)) ==> invoked == [StopHook] && r == stop
      ensures status == AfterStop(old(status), r)
      ensures callbacks == old(callbacks)
    {
      if StopIsNoOp(status) {
        return Pass, [];
      }
      status := Stopping;
      invoked := [StopHook];
      if stop.Fail? {
        status := Error;
        return stop, invoked;
      }
      status := Stopped;
      r := Pass;
    }
  }

  /**
   * A trigger whose `_start`/`_stop` do nothing, with one subscriber: after `start` it is running,
   * one `emit` delivers exactly one event with the payload unchanged, and `stop` leaves it stopped.
   */
  method StartEmitStop(payload: Object) returns (afterStart: Status, delivered: seq<Delivery>, afterStop: Status)
    ensures afterStart == Running && afterStop == Stopped
    ensures |delivered| == 1 && delivered[0].event.payload == payload && delivered[0].event.sourceId == "dummy"
  {
    var t := new Trigger("dummy", None);
    t.OnEvent(0);
    var r, invoked := t.Start(Pass);
    afterStart := t.status;
    var failure;
    delivered, failure := t.Emit(payload, None, 0, (c: CallbackId, e: Event) => Pass);
    r, invoked := t.Stop(Pass);
    afterStop := t.status;
  }
}
