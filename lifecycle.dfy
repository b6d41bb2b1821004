/**
 * What connectors and triggers share: the five-state lifecycle (`ConnectorStatus` and
 * `TriggerStatus` have the same members and values), the event handed to subscribers
 * (`ConnectorEvent`, `TriggerEvent`) and the fan-out of one event to every subscriber.
 */
module Lifecycle {
  import opened Results
  import opened Json

  datatype Status = Stopped | Starting | Running | Stopping | Error

  /** The string value of each status member. */
  function StatusValue(s: Status): (v: string)
    ensures v in {"stopped", "starting", "running", "stopping", "error"}
  {
    match s
    case Stopped => "stopped"
    case Starting => "starting"
    case Running => "running"
    case Stopping => "stopping"
    case Error => "error"
  }

  /** Distinct statuses have distinct values, so a value names its status. */
  lemma StatusValueInjective(s: Status, t: Status)
    ensures StatusValue(s) == StatusValue(t) ==> s == t
  {
  }

  /** The states in which `start` returns at once, and those in which `stop` does. */
  predicate StartIsNoOp(s: Status) {
    s == Running || s == Starting
  }

  predicate StopIsNoOp(s: Status) {
    s == Stopped || s == Stopping
  }

  /**
   * The status a `start` leaves behind, given the outcome of the abstract actions it ran (the
   * first failure among them, or success).
   */
  function AfterStart(s: Status, outcome: Outcome): (t: Status)
    ensures StartIsNoOp(s) ==> t == s
    ensures !StartIsNoOp(s) ==> (t == Running <==> outcome.Pass?) && (t == Error <==> outcome.Fail?)
  {
    if StartIsNoOp(s) then s else if outcome.Pass? then Running else Error
  }

  /** The status a `stop` leaves behind, given the outcome of `_stop`. */
  function AfterStop(s: Status, outcome: Outcome): (t: Status)
    ensures StopIsNoOp(s) ==> t == s
    ensures !StopIsNoOp(s) ==> (t == Stopped <==> outcome.Pass?) && (t == Error <==> outcome.Fail?)
  {
    if StopIsNoOp(s) then s else if outcome.Pass? then Stopped else Error
  }

  /** From any state, a successful start followed by a successful stop ends stopped. */
  lemma StartThenStop(s: Status)
    ensures AfterStop(AfterStart(s, Pass), Pass) == Stopped
  {
  }

  /** A second start after a successful one changes nothing, whatever its actions would do. */
  lemma StartIdempotent(s: Status, o: Outcome)
    ensures AfterStart(AfterStart(s, Pass), o) == AfterStart(s, Pass)
  {
  }

  /** A second stop after a successful one changes nothing. */
  lemma StopIdempotent(s: Status, o: Outcome)
    ensures AfterStop(AfterStop(s, Pass), o) == AfterStop(s, Pass)
  {
  }

  /** The abstract actions a `start` or `stop` can run, in the order they ran. */
  datatype Hook = ValidateHook | StartHook | StopHook

  /** The event given to subscribers; `sourceId` is the connector or trigger id. */
  datatype Event = Event(sourceId: string, payload: Object, timestamp: int, metadata: Object)

  /** `metadata or {}`. */
  function MetadataOrEmpty(metadata: Option<Object>): (m: Object)
    ensures metadata.Some? ==> m == metadata.value
    ensures metadata.None? ==> m == map[]
  {
    if metadata.Some? && metadata.value != map[] then metadata.value else map[]
  }

  /** A registered subscriber, identified by its registration. */
  type CallbackId = nat

  /** One subscriber receiving one event. */
  datatype Delivery = Delivery(callback: CallbackId, event: Event)

  /**
   * What a subscriber's coroutine does with an event: it may raise. `asyncio.gather` runs every
   * coroutine and raises if one of them raised.
   */
  type Reaction = (CallbackId, Event) -> Outcome

  /**
   * `emit`'s fan-out: every subscriber, in registration order, receives the one event; the
   * result is the first failure in registration order, or success.
   */
  method FanOut(callbacks: seq<CallbackId>, e: Event, react: Reaction) returns (delivered: seq<Delivery>, r: Outcome)
    ensures |delivered| == |callbacks|
    ensures forall i :: 0 <= i < |callbacks| ==> delivered[i] == Delivery(callbacks[i], e)
    ensures r.Fail? <==> exists i :: 0 <= i < |callbacks| && react(callbacks[i], e).Fail?
    ensures r.Fail? ==> exists i :: (0 <= i < |callbacks| && r == react(callbacks[i], e)
      && forall j :: 0 <= j < i ==> react(callbacks[j], e).Pass?)
  {
    delivered := [];
    r := Pass;
    var i := 0;
    while i < |callbacks|
      invariant 0 <= i <= |callbacks|
      invariant |delivered| == i
      invariant forall k :: 0 <= k < i ==> delivered[k] == Delivery(callbacks[k], e)
      invariant r.Fail? <==> exists k :: 0 <= k < i && react(callbacks[k], e).Fail?
      invariant r.Fail? ==> exists k :: (0 <= k < i && r == react(callbacks[k], e)
        && forall j :: 0 <= j < k ==> react(callbacks[j], e).Pass?)
    {
      var o := react(callbacks[i], e);
      delivered := delivered + [Delivery(callbacks[i], e)];
      if r.Pass? && o.Fail? {
        r := o;
      }
      i := i + 1;
    }
  }
}
