/**
 * The trigger registry: one dict from trigger id to trigger (a class-level attribute in the
 * source, one object here), with bulk start/stop that skip triggers already in the target
 * state, and per-status counts.
 */
module TriggerRegistry {
  import opened Results
  import opened Dicts
  import opened Lifecycle
  import opened TriggerBase
  import opened Bulk

  /** `start_all` on one trigger: skipped when running, otherwise `start` with its `_start` outcome. */
  function StartOp(starts: string -> Outcome): Op<Status> {
    (k: string, s: Status) =>
      if s == Running then (s, Pass)
      else
        var o := if StartIsNoOp(s) then Pass else starts(k);
        (AfterStart(s, o), o)
  }

  /** `stop_all` on one trigger: skipped when stopped, otherwise `stop` with its `_stop` outcome. */
  function StopOp(stops: string -> Outcome): Op<Status> {
    (k: string, s: Status) =>
      if s == Stopped then (s, Pass)
      else
        var o := if StopIsNoOp(s) then Pass else stops(k);
        (AfterStop(s, o), o)
  }

  /** How many of `keys` have a status whose value is `v`. */
  function Count(keys: seq<string>, st: map<string, Status>, v: string): nat
    requires Covers(st, keys)
  {
    if keys == [] then 0
    else Count(keys[..|keys| - 1], st, v) + (if StatusValue(st[keys[|keys| - 1]]) == v then 1 else 0)
  }

  /** The per-status counts `get_stats` accumulates over the triggers in order. */
  function Buckets(keys: seq<string>, st: map<string, Status>): map<string, int>
    requires Covers(st, keys)
  {
    if keys == [] then map[]
    else
      Bump(Buckets(keys[..|keys| - 1], st), StatusValue(st[keys[|keys| - 1]]))
  }

  /** `stats[v] = stats.get(v, 0) + 1`. */
  function Bump(b: map<string, int>, v: string): map<string, int> {
    b[v := (if v in b then b[v] else 0) + 1]
  }

  /** One more trigger adds one to its status's bucket. */
  lemma BucketsStep(keys: seq<string>, i: nat, st: map<string, Status>)
    requires Covers(st, keys) && i < |keys|
    ensures Covers(st, keys[..i]) && Covers(st, keys[..i + 1])
    ensures Buckets(keys[..i + 1], st) == Bump(Buckets(keys[..i], st), StatusValue(st[keys[i]]))
  {
    assert keys[..i + 1][..i] == keys[..i];
  }

  /** Only statuses that occur appear, each with the number of triggers in it. */
  lemma {:induction false} BucketsCount(keys: seq<string>, st: map<string, Status>)
    requires Covers(st, keys)
    ensures forall v :: v in Buckets(keys, st) <==> Count(keys, st, v) > 0
    ensures forall v :: v in Buckets(keys, st) ==> Buckets(keys, st)[v] == Count(keys, st, v)
  {
    if keys != [] {
      assert Covers(st, keys[..|keys| - 1]);
      BucketsCount(keys[..|keys| - 1], st);
    }
  }

  /** Every trigger is in exactly one bucket, so the buckets add up to the number of triggers. */
  lemma {:induction false} CountsSum(keys: seq<string>, st: map<string, Status>)
    requires Covers(st, keys)
    ensures Count(keys, st, "stopped") + Count(keys, st, "starting") + Count(keys, st, "running")
      + Count(keys, st, "stopping") + Count(keys, st, "error") == |keys|
  {
    if keys != [] {
      assert Covers(st, keys[..|keys| - 1]);
      CountsSum(keys[..|keys| - 1], st);
    }
  }

  /** `get_stats`: the buckets, plus `"total"` (no status has that value). */
  function Stats(keys: seq<string>, st: map<string, Status>): map<string, int>
    requires Covers(st, keys)
  {
    Buckets(keys, st)["total" := |keys|]
  }

  /** After a `start` that passed, the trigger is running or starting, and `start_all` skips it or no-ops. */
  lemma StartOpSettles(starts: string -> Outcome, k: string, s: Status)
    ensures var res := StartOp(starts)(k, s);
      res.1.Pass? ==> StartIsNoOp(res.0) && StartOp(starts)(k, res.0) == (res.0, Pass)
  {
    var res := StartOp(starts)(k, s);
    if s != Running {
      var o := if StartIsNoOp(s) then Pass else starts(k);
      assert res == (AfterStart(s, o), o);
    }
  }

  /** After a `stop` that passed, the trigger is stopped or stopping, and `stop_all` skips it or no-ops. */
  lemma StopOpSettles(stops: string -> Outcome, k: string, s: Status)
    ensures var res := StopOp(stops)(k, s);
      res.1.Pass? ==> StopIsNoOp(res.0) && StopOp(stops)(k, res.0) == (res.0, Pass)
  {
    var res := StopOp(stops)(k, s);
    if s != Stopped {
      var o := if StopIsNoOp(s) then Pass else stops(k);
      assert res == (AfterStop(s, o), o);
    }
  }

  /**
   * When every trigger's `_start` passes, `start_all` succeeds, every trigger ends running or
   * starting, and a second `start_all` changes no status, so the stats stay the same.
   */
  lemma StartAllRepeat(st: map<string, Status>, keys: seq<string>, starts: string -> Outcome)
    requires Covers(st, keys) && Distinct(keys)
    requires forall i :: 0 <= i < |keys| ==> starts(keys[i]).Pass?
    ensures var sw := Run(st, keys, StartOp(starts));
      && sw.result.Pass?
      && (forall i :: 0 <= i < |keys| ==> StartIsNoOp(sw.states[keys[i]]))
      && Run(sw.states, keys, StartOp(starts)) == sw
      && Stats(keys, Run(sw.states, keys, StartOp(starts)).states) == Stats(keys, sw.states)
  {
    var op := StartOp(starts);
    RunEffect(st, keys, op);
    forall k, s | true
      ensures op(k, s).1.Pass? ==> op(k, op(k, s).0) == (op(k, s).0, Pass)
    {
      StartOpSettles(starts, k, s);
    }
    forall i | 0 <= i < |keys|
      ensures op(keys[i], st[keys[i]]).1.Pass?
    {
      StartOpSettles(starts, keys[i], st[keys[i]]);
    }
    var sw := Run(st, keys, op);
    forall i | 0 <= i < |keys|
      ensures StartIsNoOp(sw.states[keys[i]])
    {
      StartOpSettles(starts, keys[i], st[keys[i]]);
    }
    RunTwice(st, keys, op);
  }

  /**
   * `stop_all` after a successful `stop_all` succeeds and changes no status, so the stats stay
   * the same; every trigger is stopped or stopping.
   */
  lemma StopAllRepeat(st: map<string, Status>, keys: seq<string>, stops: string -> Outcome)
    requires Covers(st, keys) && Distinct(keys)
    requires Run(st, keys, StopOp(stops)).result.Pass?
    ensures var sw := Run(st, keys, StopOp(stops));
      && (forall i :: 0 <= i < |keys| ==> StopIsNoOp(sw.states[keys[i]]))
      && Run(sw.states, keys, StopOp(stops)) == sw
      && Stats(keys, Run(sw.states, keys, StopOp(stops)).states) == Stats(keys, sw.states)
  {
    var op := StopOp(stops);
    RunEffect(st, keys, op);
    forall k, s | true
      ensures op(k, s).1.Pass? ==> op(k, op(k, s).0) == (op(k, s).0, Pass)
    {
      StopOpSettles(stops, k, s);
    }
    var sw := Run(st, keys, op);
    forall i | 0 <= i < |keys|
      ensures StopIsNoOp(sw.states[keys[i]])
    {
      StopOpSettles(stops, keys[i], st[keys[i]]);
    }
    RunTwice(st, keys, op);
  }

  class TriggerRegistry {
    var triggers: Dict<string, Trigger>

    /** The dict is well formed and each trigger is registered under its own id. */
    ghost predicate Valid()
      reads this
    {
      triggers.Valid() && forall k :: k in triggers.m ==> triggers.m[k].triggerId == k
    }

    ghost function Triggers(): set<Trigger>
      reads this
    {
      set k | k in triggers.m :: triggers.m[k]
    }

    /** The status of each registered trigger, by id. */
    ghost function Statuses(): (st: map<string, Status>)
      reads this, Triggers()
      ensures st.Keys == triggers.m.Keys
    {
      map k | k in triggers.m :: triggers.m[k].status
    }

    constructor ()
      ensures Valid() && triggers == EmptyDict()
    {
      triggers := EmptyDict();
    }

    /** `register`: the trigger is stored under its id, replacing any trigger with that id. */
    method Register(t: Trigger)
      requires Valid()
      modifies this
      ensures Valid() && triggers == old(triggers).Put(t.triggerId, t)
      ensures triggers.m[t.triggerId] == t
    {
      triggers := triggers.Put(t.triggerId, t);
    }

    /** `unregister`: the id goes if present; nothing else changes, and a missing id is a no-op. */
    method Unregister(id: string)
      requires Valid()
      modifies this
      ensures Valid() && triggers == old(triggers).Remove(id)
      ensures id !in old(triggers.m) ==> triggers.m == old(triggers.m)
    {
      triggers := triggers.Remove(id);
    }

    /** `get`: the trigger registered under `id`, or `None`. */
    method Get(id: string) returns (r: Option<Trigger>)
      requires Valid()
      ensures r.Some? <==> id in triggers.m
      ensures r.Some? ==> r.value == triggers.m[id] && r.value.triggerId == id
    {
      r := triggers.Get(id);
    }

    /** `list_all`: the registered triggers, in registration order. */
    method ListAll() returns (ts: seq<Trigger>)
      requires Valid()
      ensures |ts| == |triggers.keys| && forall i :: 0 <= i < |ts| ==> ts[i] == triggers.m[triggers.keys[i]]
    {
      ts := triggers.Values();
    }

    /** `clear`: the registry is empty. */
    method Clear()
      modifies this
      ensures Valid() && triggers.m == map[] && triggers.keys == []
    {
      triggers := EmptyDict();
    }

    /** `start_all` on the trigger registered under `k`: only that trigger's status changes. */
    method StartOne(k: string, starts: string -> Outcome) returns (o: Outcome)
      requires Valid() && k in triggers.m
      modifies triggers.m[k]
      ensures var res := StartOp(starts)(k, old(Statuses())[k]);
        Statuses() == old(Statuses())[k := res.0] && o == res.1
    {
      var t := triggers.m[k];
      ghost var before := Statuses();
      o := Pass;
      if t.status != Running {
        var invoked;
        o, invoked := t.Start(starts(k));
      }
      forall k' | k' in triggers.m
        ensures Statuses()[k'] == before[k := t.status][k']
      {
        if k' != k {
          assert triggers.m[k'].triggerId == k';
        }
      }
    }

    /** `stop_all` on the trigger registered under `k`: only that trigger's status changes. */
    method StopOne(k: string, stops: string -> Outcome) returns (o: Outcome)
      requires Valid() && k in triggers.m
      modifies triggers.m[k]
      ensures var res := StopOp(stops)(k, old(Statuses())[k]);
        Statuses() == old(Statuses())[k := res.0] && o == res.1
    {
      var t := triggers.m[k];
      ghost var before := Statuses();
      o := Pass;
      if t.status != Stopped {
        var invoked;
        o, invoked := t.Stop(stops(k));
      }
      forall k' | k' in triggers.m
        ensures Statuses()[k'] == before[k := t.status][k']
      {
        if k' != k {
          assert triggers.m[k'].triggerId == k';
        }
      }
    }

    /**
     * `start_all`: in registration order, `start` on every trigger that is not running, until
     * one raises; that exception reaches the caller and later triggers are not started.
     */
    method StartAll(starts: string -> Outcome) returns (r: Outcome)
      requires Valid()
      modifies Triggers()
      ensures Valid()
      ensures var sw := Run(old(Statuses()), triggers.keys, StartOp(starts));
        Statuses() == sw.states && r == sw.result
    {
      ghost var st0 := Statuses();
      var keys := triggers.keys;
      var i := 0;
      while i < |keys|
        invariant 0 <= i <= |keys|
        invariant Covers(st0, keys)
        invariant Run(st0, keys[..i], StartOp(starts)) == Sweep(Statuses(), Pass, i)
      {
        RunStep(st0, keys, i, StartOp(starts));
        var o := StartOne(keys[i], starts);
        if o.Fail? {
          RunAfterFailure(st0, keys, i + 1, StartOp(starts));
          return o;
        }
        i := i + 1;
      }
      assert keys[..i] == keys;
      r := Pass;
    }

    /**
     * `stop_all`: in registration order, `stop` on every trigger that is not stopped, until one
     * raises.
     */
    method StopAll(stops: string -> Outcome) returns (r: Outcome)
      requires Valid()
      modifies Triggers()
      ensures Valid()
      ensures var sw := Run(old(Statuses()), triggers.keys, StopOp(stops));
        Statuses() == sw.states && r == sw.result
    {
      ghost var st0 := Statuses();
      var keys := triggers.keys;
      var i := 0;
      while i < |keys|
        invariant 0 <= i <= |keys|
        invariant Covers(st0, keys)
        invariant Run(st0, keys[..i], StopOp(stops)) == Sweep(Statuses(), Pass, i)
      {
        RunStep(st0, keys, i, StopOp(stops));
        var o := StopOne(keys[i], stops);
        if o.Fail? {
          RunAfterFailure(st0, keys, i + 1, StopOp(stops));
          return o;
        }
        i := i + 1;
      }
      assert keys[..i] == keys;
      r := Pass;
    }

    /** `get_stats`: per-status counts over the registered triggers, and their total. */
    method GetStats() returns (stats: map<string, int>)
      requires Valid()
      ensures Covers(Statuses(), triggers.keys) && stats == Stats(triggers.keys, Statuses())
    {
      var keys := triggers.keys;
      ghost var st := Statuses();
      var b: map<string, int> := map[];
      var i := 0;
      while i < |keys|
        invariant 0 <= i <= |keys|
        invariant Covers(st, keys)
        invariant b == Buckets(keys[..i], st)
      {
        var v := StatusValue(triggers.m[keys[i]].status);
        assert v == StatusValue(st[keys[i]]);
        BucketsStep(keys, i, st);
        b := Bump(b, v);
        i := i + 1;
      }
      assert keys[..i] == keys;
      assert st == Statuses();
      stats := b["total" := |keys|];
    }
  }
}
