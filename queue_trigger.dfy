/**
 * The queue trigger: while running, a listener task takes messages off an asyncio queue in FIFO
 * order and emits each one, wrapping a message that is not a dict as `{"message": m}`. One pass
 * of the listen loop is one step here; the poll timeout and the sleep after an error are not
 * timed.
 */
module QueueTrigger {
  import opened Results
  import opened Json
  import opened Lifecycle
  import opened TriggerBase

  /** The payload emitted for one message: a dict as it is, anything else under `"message"`. */
  function Normalize(m: Json): (p: Object)
    ensures m.JObj? ==> p == m.fields
    ensures !m.JObj? ==> p == map["message" := m]
  {
    if m.JObj? then m.fields else map["message" := m]
  }

  /** A normalised payload put back on the queue is emitted unchanged. */
  lemma NormalizeIdempotent(m: Json)
    ensures Normalize(JObj(Normalize(m))) == Normalize(m)
  {
  }

  /** The payloads the messages `ms` produce, in order. */
  function Normalized(ms: seq<Json>): (ps: seq<Object>)
    ensures |ps| == |ms| && forall i :: 0 <= i < |ms| ==> ps[i] == Normalize(ms[i])
  {
    if ms == [] then [] else [Normalize(ms[0])] + Normalized(ms[1..])
  }

  /** What one emit of `payload` hands to the callbacks `callbacks`: one delivery each, in order. */
  function FanOutOf(callbacks: seq<CallbackId>, triggerId: string, payload: Object, now: int): (ds: seq<Delivery>)
    ensures |ds| == |callbacks|
    ensures forall i :: 0 <= i < |ds| ==> ds[i].callback == callbacks[i]
    ensures forall i :: 0 <= i < |ds| ==> ds[i].event == Event(triggerId, payload, now, map[])
  {
    seq(|callbacks|, i requires 0 <= i < |callbacks| => Delivery(callbacks[i], Event(triggerId, payload, now, map[])))
  }

  /** The deliveries of emitting the payloads `ps` one after the other. */
  function FanOutAll(callbacks: seq<CallbackId>, triggerId: string, ps: seq<Object>, now: int): (ds: seq<Delivery>)
    ensures |ds| == |ps| * |callbacks|
  {
    if ps == [] then []
    else FanOutAll(callbacks, triggerId, ps[..|ps| - 1], now) + FanOutOf(callbacks, triggerId, ps[|ps| - 1], now)
  }

  class QueueTrigger {
    const base: Trigger
    /** The messages waiting in the queue, head first. */
    var queue: seq<Json>
    /** Whether the listener task exists. */
    var task: bool
    const pollInterval: real

    /** A new queue trigger listens to the given queue, or to a new empty one. */
    constructor (triggerId: string, initial: Option<seq<Json>>, name: Option<string>, pollInterval: real)
      ensures fresh(base) && base.triggerId == triggerId && base.status == Stopped && base.callbacks == []
      ensures queue == initial.GetOr([]) && !task && this.pollInterval == pollInterval
    {
      base := new Trigger(triggerId, name);
      queue := initial.GetOr([]);
      task := false;
      this.pollInterval := pollInterval;
    }

    /** `enqueue`: the message goes to the tail of the queue. */
    method Enqueue(message: Json)
      modifies this
      ensures queue == old(queue) + [message] && task == old(task)
    {
      queue := queue + [message];
    }

    /** `start`: `_start` creates the listener task; a no-op start creates nothing. */
    method Start() returns (r: Outcome)
      modifies this, base
      ensures r == Pass && base.status == AfterStart(old(base.status), Pass)
      ensures task == (old(task) || !StartIsNoOp(old(base.status)))
      ensures queue == old(queue) && base.callbacks == old(base.callbacks)
    {
      if !StartIsNoOp(base.status) {
        task := true;
      }
      var invoked;
      r, invoked := base.Start(Pass);
    }

    /** `stop`: `_stop` cancels the listener task, if any, and clears it. */
    method Stop() returns (r: Outcome)
      modifies this, base
      ensures r == Pass && base.status == AfterStop(old(base.status), Pass)
      ensures task == (old(task) && StopIsNoOp(old(base.status)))
      ensures queue == old(queue) && base.callbacks == old(base.callbacks)
    {
      if !StopIsNoOp(base.status) {
        task := false;
      }
      var invoked;
      r, invoked := base.Stop(Pass);
    }

    /**
     * One pass of the listen loop. An empty queue times out and emits nothing; otherwise the head
     * message leaves the queue and its payload is emitted. A failing emit is only logged: the
     * message is not put back and the loop goes on.
     */
    method ListenOnce(now: int, react: Reaction) returns (emitted: Option<Object>, delivered: seq<Delivery>, outcome: Outcome)
      modifies this
      ensures !old(task) || old(queue) == [] ==> emitted == None && queue == old(queue) && delivered == [] && outcome == Pass
      ensures old(task) && old(queue) != [] ==> emitted == Some(Normalize(old(queue)[0])) && queue == old(queue)[1..]
      ensures emitted.Some? ==> delivered == FanOutOf(base.callbacks, base.triggerId, emitted.value, now)
      ensures emitted.Some? ==> (outcome.Fail? <==> exists i :: (0 <= i < |base.callbacks|
        && react(base.callbacks[i], Event(base.triggerId, emitted.value, now, map[])).Fail?))
      ensures task == old(task)
    {
      if !task || queue == [] {
        return None, [], Pass;
      }
      var message := queue[0];
      queue := queue[1..];
      delivered, outcome := base.Emit(Normalize(message), None, now, react);
      emitted := Some(Normalize(message));
    }

    /**
     * The listener running until the queue is empty: every waiting message is emitted exactly
     * once, in FIFO order. Without a listener task nothing happens.
     */
    method Drain(now: int, react: Reaction) returns (emitted: seq<Object>, delivered: seq<Delivery>)
      modifies this
      ensures old(task) ==> emitted == Normalized(old(queue)) && queue == []
      ensures !old(task) ==> emitted == [] && queue == old(queue)
      ensures delivered == FanOutAll(base.callbacks, base.triggerId, emitted, now)
      ensures task == old(task)
    {
      emitted, delivered := [], [];
      if !task {
        return;
      }
      ghost var initial := queue;
      while queue != []
        invariant task
        invariant |emitted| + |queue| == |initial|
        invariant queue == initial[|emitted|..]
        invariant emitted == Normalized(initial[..|emitted|])
        invariant delivered == FanOutAll(base.callbacks, base.triggerId, emitted, now)
        decreases |queue|
      {
        var one, ds, outcome := ListenOnce(now, react);
        assert initial[..|emitted| + 1] == initial[..|emitted|] + [initial[|emitted|]];
        NormalizedAppend(initial[..|emitted|], initial[|emitted|]);
        ghost var before := emitted;
        emitted := emitted + [one.value];
        assert emitted[..|emitted| - 1] == before;
        delivered := delivered + ds;
      }
      assert initial[..|emitted|] == initial;
    }
  }

  lemma NormalizedAppend(ms: seq<Json>, m: Json)
    ensures Normalized(ms + [m]) == Normalized(ms) + [Normalize(m)]
  {
  }

  /**
   * A started queue trigger with one subscriber emits enqueued messages in FIFO order, a dict
   * unchanged and a plain value wrapped under `"message"`, and the subscriber receives each one.
   */
  method EnqueueThenListen(first: Object, second: Json, handler: CallbackId)
    returns (emitted: seq<Object>, delivered: seq<Delivery>)
    requires !second.JObj?
    ensures emitted == [first, map["message" := second]]
    ensures delivered == FanOutAll([handler], "queue", emitted, 0)
    ensures delivered == [Delivery(handler, Event("queue", first, 0, map[])),
                          Delivery(handler, Event("queue", map["message" := second], 0, map[]))]
  {
    var t := new QueueTrigger("queue", None, None, 0.1);
    t.base.OnEvent(handler);
    var r := t.Start();
    t.Enqueue(JObj(first));
    t.Enqueue(second);
    emitted, delivered := t.Drain(0, (c: CallbackId, e: Event) => Pass);
    assert emitted[..1] == [first] && emitted[..1][..0] == [];
  }
}
