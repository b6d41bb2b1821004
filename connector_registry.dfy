/**
 * The connector registry: one dict from connector id to connector (a class-level attribute in
 * the source, one object here). Unlike the trigger registry its bulk start/stop call `start` or
 * `stop` on every connector; the connector's own no-op rule does the skipping.
 */
module ConnectorRegistry {
  import opened Results
  import opened Dicts
  import opened Lifecycle
  import opened ConnectorBase
  import opened Bulk

  /** What a bulk operation sees of one connector: its status and its last error. */
  datatype Condition = Condition(status: Status, lastError: Option<string>)

  /**
   * `start` on one connector, with the outcomes of its `validate_config` and `_start`: a no-op
   * when running or starting; otherwise validation, then `_start` only if validation passed.
   */
  function StartOp(validates: string -> Outcome, starts: string -> Outcome): Op<Condition> {
    (k: string, c: Condition) =>
      if StartIsNoOp(c.status) then (c, Pass)
      else
        var o := if validates(k).Fail? then validates(k) else starts(k);
        (Condition(AfterStart(c.status, o), if o.Pass? then None else Some(o.message)), o)
  }

  /** `stop` on one connector, with the outcome of its `_stop`: a no-op when stopped or stopping. */
  function StopOp(stops: string -> Outcome): Op<Condition> {
    (k: string, c: Condition) =>
      if StopIsNoOp(c.status) then (c, Pass)
      else
        var o := stops(k);
        (Condition(AfterStop(c.status, o), if o.Pass? then None else Some(o.message)), o)
  }

  /**
   * After a successful start a connector is running or starting, and starting it again changes
   * nothing; a start that was not a no-op also clears the last error.
   */
  lemma StartOpSettles(validates: string -> Outcome, starts: string -> Outcome, k: string, c: Condition)
    ensures var res := StartOp(validates, starts)(k, c);
      res.1.Pass? ==> StartIsNoOp(res.0.status) && StartOp(validates, starts)(k, res.0) == (res.0, Pass)
    ensures var res := StartOp(validates, starts)(k, c);
      res.1.Pass? && !StartIsNoOp(c.status) ==> res.0.lastError == None
  {
    var res := StartOp(validates, starts)(k, c);
    if !StartIsNoOp(c.status) {
      var o := if validates(k).Fail? then validates(k) else starts(k);
      assert res == (Condition(AfterStart(c.status, o), if o.Pass? then None else Some(o.message)), o);
    }
  }

  /**
   * After a successful stop a connector is stopped or stopping, and stopping it again changes
   * nothing; a stop that was not a no-op also clears the last error.
   */
  lemma StopOpSettles(stops: string -> Outcome, k: string, c: Condition)
    ensures var res := StopOp(stops)(k, c);
      res.1.Pass? ==> StopIsNoOp(res.0.status) && StopOp(stops)(k, res.0) == (res.0, Pass)
    ensures var res := StopOp(stops)(k, c);
      res.1.Pass? && !StopIsNoOp(c.status) ==> res.0.lastError == None
  {
    var res := StopOp(stops)(k, c);
    if !StopIsNoOp(c.status) {
      var o := stops(k);
      assert res == (Condition(AfterStop(c.status, o), if o.Pass? then None else Some(o.message)), o);
    }
  }

  class ConnectorRegistry {
    var connectors: Dict<string, Connector>

    /** The dict is well formed and each connector is registered under its own id. */
    ghost predicate Valid()
      reads this
    {
      connectors.Valid() && forall k :: k in connectors.m ==> connectors.m[k].connectorId == k
    }

    ghost function Connectors(): set<Connector>
      reads this
    {
      set k | k in connectors.m :: connectors.m[k]
    }

    /** The status and last error of each registered connector, by id. */
    ghost function Conditions(): (cs: map<string, Condition>)
      reads this, Connectors()
      ensures cs.Keys == connectors.m.Keys
    {
      map k | k in connectors.m :: Condition(connectors.m[k].status, connectors.m[k].lastError)
    }

    constructor ()
      ensures Valid() && connectors == EmptyDict()
    {
      connectors := EmptyDict();
    }

    /** `register`: the connector is stored under its id, replacing any connector with that id. */
    method Register(c: Connector)
      requires Valid()
      modifies this
      ensures Valid() && connectors == old(connectors).Put(c.connectorId, c)
      ensures connectors.m[c.connectorId] == c
    {
      connectors := connectors.Put(c.connectorId, c);
    }

    /** `unregister`: `pop(id, None)`, so a missing id is a no-op. */
    method Unregister(id: string)
      requires Valid()
      modifies this
      ensures Valid() && connectors == old(connectors).Remove(id)
      ensures id !in old(connectors.m) ==> connectors.m == old(connectors.m)
    {
      connectors := connectors.Remove(id);
    }

    /** `get`: the connector registered under `id`, or `None`. */
    method Get(id: string) returns (r: Option<Connector>)
      requires Valid()
      ensures r.Some? <==> id in connectors.m
      ensures r.Some? ==> r.value == connectors.m[id] && r.value.connectorId == id
    {
      r := connectors.Get(id);
    }

    /** `list_all`: the registered connectors, in registration order. */
    method ListAll() returns (cs: seq<Connector>)
      requires Valid()
      ensures |cs| == |connectors.keys| && forall i :: 0 <= i < |cs| ==> cs[i] == connectors.m[connectors.keys[i]]
    {
      cs := connectors.Values();
    }

    /** `start` on the connector registered under `k`: only that connector's condition changes. */
    method StartOne(k: string, validates: string -> Outcome, starts: string -> Outcome) returns (o: Outcome)
      requires Valid() && k in connectors.m
      modifies connectors.m[k]
      ensures var res := StartOp(validates, starts)(k, old(Conditions())[k]);
        Conditions() == old(Conditions())[k := res.0] && o == res.1
    {
      var c := connectors.m[k];
      ghost var before := Conditions();
      var invoked;
      o, invoked := c.Start(validates(k), starts(k));
      forall k' | k' in connectors.m
        ensures Conditions()[k'] == before[k := Condition(c.status, c.lastError)][k']
      {
        if k' != k {
          assert connectors.m[k'].connectorId == k';
        }
      }
    }

    /** `stop` on the connector registered under `k`: only that connector's condition changes. */
    method StopOne(k: string, stops: string -> Outcome) returns (o: Outcome)
      requires Valid() && k in connectors.m
      modifies connectors.m[k]
      ensures var res := StopOp(stops)(k, old(Conditions())[k]);
        Conditions() == old(Conditions())[k := res.0] && o == res.1
    {
      var c := connectors.m[k];
      ghost var before := Conditions();
      var invoked;
      o, invoked := c.Stop(stops(k));
      forall k' | k' in connectors.m
        ensures Conditions()[k'] == before[k := Condition(c.status, c.lastError)][k']
      {
        if k' != k {
          assert connectors.m[k'].connectorId == k';
        }
      }
    }

    /**
     * `start_all`: `start` on every connector in registration order; the first one that raises
     * ends the loop and its exception reaches the caller.
     */
    method StartAll(validates: string -> Outcome, starts: string -> Outcome) returns (r: Outcome)
      requires Valid()
      modifies Connectors()
      ensures Valid()
      ensures var sw := Run(old(Conditions()), connectors.keys, StartOp(validates, starts));
        Conditions() == sw.states && r == sw.result
    {
      ghost var cs0 := Conditions();
      ghost var op := StartOp(validates, starts);
      var keys := connectors.keys;
      var i := 0;
      while i < |keys|
        invariant 0 <= i <= |keys|
        invariant Covers(cs0, keys)
        invariant Run(cs0, keys[..i], op) == Sweep(Conditions(), Pass, i)
      {
        RunStep(cs0, keys, i, op);
        var o := StartOne(keys[i], validates, starts);
        if o.Fail? {
          RunAfterFailure(cs0, keys, i + 1, op);
          return o;
        }
        i := i + 1;
      }
      assert keys[..i] == keys;
      r := Pass;
    }

    /** `stop_all`: `stop` on every connector in registration order, until one raises. */
    method StopAll(stops: string -> Outcome) returns (r: Outcome)
      requires Valid()
      modifies Connectors()
      ensures Valid()
      ensures var sw := Run(old(Conditions()), connectors.keys, StopOp(stops));
        Conditions() == sw.states && r == sw.result
    {
      ghost var cs0 := Conditions();
      ghost var op := StopOp(stops);
      var keys := connectors.keys;
      var i := 0;
      while i < |keys|
        invariant 0 <= i <= |keys|
        invariant Covers(cs0, keys)
        invariant Run(cs0, keys[..i], op) == Sweep(Conditions(), Pass, i)
      {
        RunStep(cs0, keys, i, op);
        var o := StopOne(keys[i], stops);
        if o.Fail? {
          RunAfterFailure(cs0, keys, i + 1, op);
          return o;
        }
        i := i + 1;
      }
      assert keys[..i] == keys;
      r := Pass;
    }
  }

  /**
   * When every connector's validation and `_start` pass, `start_all` leaves every connector
   * running or starting, clears the last error of every connector it actually started, and a
   * second `start_all` changes nothing.
   */
  lemma StartAllSettles(cs: map<string, Condition>, keys: seq<string>, validates: string -> Outcome,
                        starts: string -> Outcome)
    requires Covers(cs, keys) && Distinct(keys)
    requires forall i :: 0 <= i < |keys| ==> validates(keys[i]).Pass? && starts(keys[i]).Pass?
    ensures var sw := Run(cs, keys, StartOp(validates, starts));
      && sw.result.Pass?
      && (forall i :: 0 <= i < |keys| ==> StartIsNoOp(sw.states[keys[i]].status))
      && (forall i :: 0 <= i < |keys| && !StartIsNoOp(cs[keys[i]].status) ==> sw.states[keys[i]].lastError == None)
      && Run(sw.states, keys, StartOp(validates, starts)) == sw
  {
    var op := StartOp(validates, starts);
    RunEffect(cs, keys, op);
    var sw := Run(cs, keys, op);
    forall k, c | true
      ensures op(k, c).1.Pass? ==> op(k, op(k, c).0) == (op(k, c).0, Pass)
    {
      StartOpSettles(validates, starts, k, c);
    }
    RunTwice(cs, keys, op);
  }
}
