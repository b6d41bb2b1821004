/**
 * The schedule trigger: a cron expression or an interval, run by APScheduler. Each tick emits
 * the static payload with the tick time under `"scheduled_at"`. The scheduler library is an
 * abstract dependency: whether it can be imported, whether it knows a timezone name and whether
 * it accepts a cron string in a timezone are parameters.
 */
module ScheduleTrigger {
  import opened Results
  import opened Json
  import opened Lifecycle
  import opened TriggerBase

  /** `if self.cron or self.interval_seconds`: Python truthiness, so `""` and `0` count as absent. */
  predicate ScheduleGiven(cron: Option<string>, interval: Option<int>) {
    (cron.Some? && cron.value != "") || (interval.Some? && interval.value != 0)
  }

  /** The schedule the job is registered with. */
  datatype Schedule = Cron(expression: string) | Interval(seconds: int)

  /** The cron expression wins whenever it is given; otherwise the interval is used. */
  function SelectSchedule(cron: Option<string>, interval: Option<int>): (s: Schedule)
    requires ScheduleGiven(cron, interval)
    ensures cron.Some? && cron.value != "" ==> s == Cron(cron.value)
    ensures (cron.None? || cron.value == "") ==> s == Interval(interval.value) && s.seconds != 0
  {
    if cron.Some? && cron.value != "" then Cron(cron.value) else Interval(interval.value)
  }

  /**
   * The payload of one tick, `{"scheduled_at": ts, **payload}`: every key of the static payload
   * keeps its value, including a `"scheduled_at"` key, which wins over the tick time.
   */
  function TickPayload(ts: string, payload: Object): (p: Object)
    ensures p.Keys == payload.Keys + {"scheduled_at"}
    ensures forall k :: k in payload ==> p[k] == payload[k]
    ensures "scheduled_at" !in payload ==> p["scheduled_at"] == JStr(ts)
  {
    map["scheduled_at" := JStr(ts)] + payload
  }

  /** `payload or {}`. */
  function PayloadOrEmpty(payload: Option<Object>): (p: Object)
    ensures payload.Some? ==> p == payload.value
    ensures payload.None? ==> p == map[]
  {
    if payload.Some? then payload.value else map[]
  }

  const MissingScheduleError: string := "ValueError: Either cron or interval_seconds must be provided"
  const MissingSchedulerError: string := "ImportError: APScheduler is required for ScheduleTrigger. Install with: pip install apscheduler"

  /** The error the scheduler raises for a timezone name it does not know. */
  function UnknownTimezone(tz: string): string {
    "UnknownTimeZoneError: '" + tz + "'"
  }

  class ScheduleTrigger {
    const base: Trigger
    const cron: Option<string>
    const interval: Option<int>
    const payload: Object
    const timezone: string
    /** The running scheduler, with the schedule of its one job. */
    var scheduler: Option<Schedule>

    ghost predicate Valid() {
      ScheduleGiven(cron, interval)
    }

    constructor Init(triggerId: string, cron: Option<string>, interval: Option<int>, payload: Option<Object>,
                     name: Option<string>, timezone: string)
      requires ScheduleGiven(cron, interval)
      ensures Valid() && fresh(base) && base.triggerId == triggerId && base.status == Stopped && base.callbacks == []
      ensures this.cron == cron && this.interval == interval && this.payload == PayloadOrEmpty(payload)
      ensures this.timezone == timezone && scheduler == None
    {
      base := new Trigger(triggerId, name);
      this.cron := cron;
      this.interval := interval;
      this.payload := PayloadOrEmpty(payload);
      this.timezone := timezone;
      scheduler := None;
    }

    /**
     * `start`: `_start` fails when APScheduler cannot be imported, when the scheduler does not know
     * the timezone, or when a cron schedule's expression is rejected in that timezone; otherwise
     * the scheduler runs one job on the selected schedule.
     */
    method Start(schedulerAvailable: bool, timezoneAccepted: string -> bool, cronAccepted: (string, string) -> bool)
      returns (r: Outcome)
      requires Valid()
      modifies this, base
      ensures Valid()
      ensures StartIsNoOp(old(base.status)) ==> r == Pass && scheduler == old(scheduler)
      ensures !StartIsNoOp(old(base.status)) ==>
        && (r.Pass? <==> (schedulerAvailable && timezoneAccepted(timezone)
                          && (SelectSchedule(cron, interval).Cron? ==> cronAccepted(cron.value, timezone))))
        && (!schedulerAvailable ==> r == Fail(MissingSchedulerError))
        && (schedulerAvailable && !timezoneAccepted(timezone) ==> r == Fail(UnknownTimezone(timezone)))
        && (r.Pass? ==> scheduler == Some(SelectSchedule(cron, interval)))
        && (r.Fail? ==> scheduler == old(scheduler))
      ensures base.status == AfterStart(old(base.status), r) && base.callbacks == old(base.callbacks)
    {
      if StartIsNoOp(base.status) {
        var invoked;
        r, invoked := base.Start(Pass);
        return;
      }
      var schedule := SelectSchedule(cron, interval);
      var outcome: Outcome;
      if !schedulerAvailable {
        outcome := Fail(MissingSchedulerError);
      } else if !timezoneAccepted(timezone) {
        outcome := Fail(UnknownTimezone(timezone));
      } else if schedule.Cron? && !cronAccepted(schedule.expression, timezone) {
        outcome := Fail("ValueError: invalid crontab expression");
      } else {
        outcome := Pass;
        scheduler := Some(schedule);
      }
      var invoked;
      r, invoked := base.Start(outcome);
    }

    /** `stop`: `_stop` shuts the scheduler down and clears it; without one it does nothing. */
    method Stop() returns (r: Outcome)
      requires Valid()
      modifies this, base
      ensures Valid()
      ensures r == Pass && base.status == AfterStop(old(base.status), Pass)
      ensures scheduler == (if StopIsNoOp(old(base.status)) then old(scheduler) else None)
      ensures base.callbacks == old(base.callbacks)
    {
      if !StopIsNoOp(base.status) {
        scheduler := None;
      }
      var invoked;
      r, invoked := base.Stop(Pass);
    }

    /**
     * A scheduler tick at time `ts`: every subscriber, in subscription order, receives one event of
     * this trigger carrying the merged tick payload and empty metadata; the tick fails exactly when
     * a subscriber's reaction fails.
     */
    method Tick(ts: string, now: int, react: Reaction) returns (delivered: seq<Delivery>, r: Outcome)
      ensures scheduler.None? ==> delivered == [] && r == Pass
      ensures scheduler.Some? ==> (|delivered| == |base.callbacks|
        && forall i :: 0 <= i < |delivered| ==> delivered[i].event.payload == TickPayload(ts, payload))
      ensures scheduler.Some? ==> forall i :: 0 <= i < |delivered| ==>
        delivered[i] == Delivery(base.callbacks[i], Event(base.triggerId, TickPayload(ts, payload), now, map[]))
      ensures scheduler.Some? ==> (r.Fail? <==> exists i :: (0 <= i < |base.callbacks|
        && react(base.callbacks[i], Event(base.triggerId, TickPayload(ts, payload), now, map[])).Fail?))
    {
      if scheduler.None? {
        return [], Pass;
      }
      delivered, r := base.Emit(TickPayload(ts, payload), None, now, react);
    }
  }

  /**
   * The constructor's rule: it raises `ValueError` exactly when neither a cron expression nor an
   * interval is given.
   */
  method Create(triggerId: string, cron: Option<string>, interval: Option<int>, payload: Option<Object>,
                name: Option<string>, timezone: string) returns (r: Result<ScheduleTrigger>)
    ensures r.Err? <==> !ScheduleGiven(cron, interval)
    ensures r.Err? ==> r.error == MissingScheduleError
    ensures r.Ok? ==> (fresh(r.value) && r.value.Valid() && r.value.payload == PayloadOrEmpty(payload)
      && r.value.base.status == Stopped)
  {
    if !ScheduleGiven(cron, interval) {
      return Err(MissingScheduleError);
    }
    var t := new ScheduleTrigger.Init(triggerId, cron, interval, payload, name, timezone);
    r := Ok(t);
  }

  /** An interval trigger with the scheduler installed runs after `start` and is stopped after `stop`. */
  method IntervalStartStop() returns (afterStart: Status, afterStop: Status)
    ensures afterStart == Running && afterStop == Stopped
  {
    var t := new ScheduleTrigger.Init("schedule", None, Some(1), None, None, "UTC");
    var r := t.Start(true, (tz: string) => true, (c: string, tz: string) => true);
    afterStart := t.base.status;
    r := t.Stop();
    afterStop := t.base.status;
  }
}
