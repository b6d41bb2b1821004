/**
 * A registry's bulk operation (`start_all`, `stop_all`): a loop over the registered entries in
 * dict order that applies one lifecycle call to each and has no error handling, so the first
 * call that raises ends the loop and the exception reaches the caller.
 */
module Bulk {
  import opened Results
  import opened Dicts

  /** The states after a sweep, its outcome, and how many entries it reached (the failing one included). */
  datatype Sweep<S> = Sweep(states: map<string, S>, result: Outcome, reached: nat)

  /** What the lifecycle call does to one entry (by id): its new state, and whether it raised. */
  type Op<!S> = (string, S) -> (S, Outcome)

  predicate Covers<S>(st: map<string, S>, keys: seq<string>) {
    forall i :: 0 <= i < |keys| ==> keys[i] in st
  }

  /** The sweep over `keys`, applying `op` to each entry in order until one raises. */
  function Run<S>(st: map<string, S>, keys: seq<string>, op: Op<S>): (r: Sweep<S>)
    requires Covers(st, keys)
    ensures r.states.Keys == st.Keys
    ensures r.reached <= |keys|
    ensures r.result.Pass? ==> r.reached == |keys|
    decreases |keys|
  {
    if keys == [] then Sweep(st, Pass, 0)
    else
      var prev := Run(st, keys[..|keys| - 1], op);
      if prev.result.Fail? then prev
      else
        var k := keys[|keys| - 1];
        var res := op(k, prev.states[k]);
        Sweep(prev.states[k := res.0], res.1, prev.reached + 1)
  }

  /**
   * Each entry the sweep reached went through `op` exactly once; entries it did not reach, and
   * ids outside `keys`, keep their state.
   */
  lemma {:induction false} RunStates<S>(st: map<string, S>, keys: seq<string>, op: Op<S>)
    requires Covers(st, keys) && Distinct(keys)
    ensures var r := Run(st, keys, op);
      && (forall i :: 0 <= i < r.reached ==> r.states[keys[i]] == op(keys[i], st[keys[i]]).0)
      && (forall i :: r.reached <= i < |keys| ==> r.states[keys[i]] == st[keys[i]])
      && (forall k :: k in st && k !in keys ==> r.states[k] == st[k])
    decreases |keys|
  {
    if keys != [] {
      var init := keys[..|keys| - 1];
      assert Distinct(init);
      assert Covers(st, init);
      RunStates(st, init, op);
      var k := keys[|keys| - 1];
      assert k !in init;
      forall i | 0 <= i < |init|
        ensures init[i] == keys[i]
      {
      }
    }
  }

  /**
   * Every entry before the last one reached passed, and a sweep that reached anything ended
   * with the last reached entry's outcome, each computed on the entry's state before the sweep.
   */
  lemma {:induction false} RunOutcomes<S>(st: map<string, S>, keys: seq<string>, op: Op<S>)
    requires Covers(st, keys) && Distinct(keys)
    ensures var r := Run(st, keys, op);
      && (forall i :: 0 <= i < r.reached - 1 ==> op(keys[i], st[keys[i]]).1.Pass?)
      && (r.reached > 0 ==> r.result == op(keys[r.reached - 1], st[keys[r.reached - 1]]).1)
    decreases |keys|
  {
    if keys != [] {
      var init := keys[..|keys| - 1];
      assert Distinct(init);
      assert Covers(st, init);
      RunOutcomes(st, init, op);
      RunStates(st, init, op);
      forall i | 0 <= i < |init|
        ensures init[i] == keys[i]
      {
      }
    }
  }

  /**
   * Each entry the sweep reached went through `op` exactly once, every one before the last
   * reached passed, and a failing sweep failed with the last reached entry's exception; entries
   * it did not reach, and ids outside `keys`, keep their state.
   */
  lemma RunEffect<S>(st: map<string, S>, keys: seq<string>, op: Op<S>)
    requires Covers(st, keys) && Distinct(keys)
    ensures var r := Run(st, keys, op);
      && (forall i :: 0 <= i < r.reached ==> r.states[keys[i]] == op(keys[i], st[keys[i]]).0)
      && (forall i :: 0 <= i < r.reached - 1 ==> op(keys[i], st[keys[i]]).1.Pass?)
      && (r.reached > 0 ==> r.result == op(keys[r.reached - 1], st[keys[r.reached - 1]]).1)
      && (forall i :: r.reached <= i < |keys| ==> r.states[keys[i]] == st[keys[i]])
      && (forall k :: k in st && k !in keys ==> r.states[k] == st[k])
  {
    RunStates(st, keys, op);
    RunOutcomes(st, keys, op);
  }

  /**
   * A second sweep after a fully successful one changes nothing and succeeds, when applying the
   * call to an entry it has just succeeded on is a successful no-op.
   */
  lemma RunTwice<S>(st: map<string, S>, keys: seq<string>, op: Op<S>)
    requires Covers(st, keys) && Distinct(keys)
    requires forall k, s :: op(k, s).1.Pass? ==> op(k, op(k, s).0) == (op(k, s).0, Pass)
    requires Run(st, keys, op).result.Pass?
    ensures Run(Run(st, keys, op).states, keys, op) == Run(st, keys, op)
  {
    var first := Run(st, keys, op);
    RunEffect(st, keys, op);
    RunFixed(first.states, keys, op);
  }

  /** A sweep over entries on which the call is a successful no-op leaves everything as it was. */
  lemma {:induction false} RunFixed<S>(st: map<string, S>, keys: seq<string>, op: Op<S>)
    requires Covers(st, keys)
    requires forall i :: 0 <= i < |keys| ==> op(keys[i], st[keys[i]]) == (st[keys[i]], Pass)
    ensures Run(st, keys, op) == Sweep(st, Pass, |keys|)
    decreases |keys|
  {
    if keys != [] {
      var init := keys[..|keys| - 1];
      assert Covers(st, init);
      forall i | 0 <= i < |init|
        ensures op(init[i], st[init[i]]) == (st[init[i]], Pass)
      {
        assert init[i] == keys[i];
      }
      RunFixed(st, init, op);
    }
  }

  /** Extending the keys of a sweep that already failed changes nothing. */
  lemma {:induction false} RunAfterFailure<S>(st: map<string, S>, keys: seq<string>, n: nat, op: Op<S>)
    requires Covers(st, keys) && n <= |keys|
    requires Run(st, keys[..n], op).result.Fail?
    ensures Run(st, keys, op) == Run(st, keys[..n], op)
    decreases |keys| - n
  {
    if n < |keys| {
      assert keys[..n + 1][..n] == keys[..n];
      assert Covers(st, keys[..n + 1]);
      RunAfterFailure(st, keys, n + 1, op);
    } else {
      assert keys[..n] == keys;
    }
  }

  /** One more entry on a sweep that has passed so far. */
  lemma RunStep<S>(st: map<string, S>, keys: seq<string>, i: nat, op: Op<S>)
    requires Covers(st, keys) && i < |keys|
    requires Run(st, keys[..i], op).result.Pass?
    ensures var prev := Run(st, keys[..i], op);
      var res := op(keys[i], prev.states[keys[i]]);
      Run(st, keys[..i + 1], op) == Sweep(prev.states[keys[i] := res.0], res.1, i + 1)
  {
    assert keys[..i + 1][..i] == keys[..i];
    assert Covers(st, keys[..i + 1]);
  }
}
