/** The in-memory GenXBot run store: a dict from run id to run session. */
module Store {
  import opened Results
  import opened Dicts
  import opened RunSchemas

  class RunStore {
    var runs: Dict<string, RunSession>

    /** Every run is filed under its own id. */
    ghost predicate Valid()
      reads this
    {
      runs.Valid() && forall k :: k in runs.m ==> runs.m[k].id == k
    }

    constructor ()
      ensures Valid() && runs == EmptyDict()
    {
      runs := EmptyDict();
    }

    /** `get`: the run filed under `runId`, or `None`. */
    function Get(runId: string): (r: Option<RunSession>)
      reads this
      ensures r.Some? <==> runId in runs.m
      ensures r.Some? ==> r.value == runs.m[runId] && (Valid() ==> r.value.id == runId)
    {
      runs.Get(runId)
    }

    /** `create`: files `run` under its id, replacing any run with that id, and returns it. */
    method Create(run: RunSession) returns (r: RunSession)
      requires Valid()
      modifies this
      ensures Valid() && r == run
      ensures runs == old(runs).Put(run.id, run)
      ensures Get(run.id) == Some(run)
      ensures forall k :: k != run.id ==> Get(k) == old(Get(k))
    {
      runs := runs.Put(run.id, run);
      r := run;
    }

    /** `update`: the same filing as `create`; the entry for `run.id` is replaced, the others stay. */
    method Update(run: RunSession) returns (r: RunSession)
      requires Valid()
      modifies this
      ensures Valid() && r == run
      ensures runs == old(runs).Put(run.id, run)
      ensures Get(run.id) == Some(run)
      ensures forall k :: k != run.id ==> Get(k) == old(Get(k))
    {
      runs := runs.Put(run.id, run);
      r := run;
    }

    /** `list_runs`: every stored run once, in the order the ids were first filed. */
    function ListRuns(): (rs: seq<RunSession>)
      requires Valid()
      reads this
      ensures |rs| == |runs.keys|
      ensures forall i :: 0 <= i < |rs| ==> runs.keys[i] in runs.m && rs[i] == runs.m[runs.keys[i]]
      ensures forall k :: k in runs.m ==> runs.m[k] in rs
      ensures forall i, j :: 0 <= i < j < |rs| ==> rs[i] != rs[j]
    {
      var vs := runs.Values();
      assert forall k :: k in runs.m ==> runs.m[k] == vs[IndexOf(runs.keys, k)];
      vs
    }
  }

  /** The position of `k` in `keys`. */
  function IndexOf(keys: seq<string>, k: string): (i: nat)
    requires k in keys
    ensures i < |keys| && keys[i] == k
  {
    if keys[0] == k then 0 else 1 + IndexOf(keys[1..], k)
  }

  /** Updating a run with the object already filed under its id leaves the store as it was. */
  lemma UpdateSameRun(runs: Dict<string, RunSession>, run: RunSession)
    requires runs.Valid() && run.id in runs.m && runs.m[run.id] == run
    ensures runs.Put(run.id, run) == runs
  {
    assert runs.m[run.id := run] == runs.m;
  }
}
