/**
 * The audit log and the approval workflow. Both keep an in-memory copy of what they hold and
 * write every change through to a shared store, so a new service started on the same store
 * sees earlier requests and events. The SQLite store is a plain object here: its tables are a
 * list of events and a dict of requests keyed by id (`INSERT OR REPLACE`).
 */
module Audit {
  import opened Results
  import opened Text
  import opened Json
  import opened Dicts

  datatype AuditEvent = AuditEvent(action: string, actorId: string, resourceId: string, status: string,
                                   metadata: Object, timestamp: string)

  datatype ApprovalRequest = ApprovalRequest(requestId: string, action: string, resourceId: string,
                                             actorId: string, status: string, createdAt: string)

  /** The persistent store both services write through to. */
  class AuditStore {
    var events: seq<AuditEvent>
    var requests: Dict<string, ApprovalRequest>

    ghost predicate Valid()
      reads this
    {
      requests.Valid()
    }

    /** A new, empty database. */
    constructor ()
      ensures Valid() && events == [] && requests == EmptyDict()
    {
      events := [];
      requests := EmptyDict();
    }
  }

  /** `AuditLog`: the events in the order they were recorded. */
  class AuditLog {
    const store: AuditStore
    var events: seq<AuditEvent>

    ghost predicate Valid()
      reads this, store
    {
      events == store.events
    }

    /** A new log loads the stored events. */
    constructor (store: AuditStore)
      ensures Valid() && this.store == store && events == store.events
    {
      this.store := store;
      events := store.events;
    }

    /** `record`: the event goes last, in memory and in the store. */
    method Record(e: AuditEvent)
      requires Valid()
      modifies this, store
      ensures Valid() && events == old(events) + [e] && store.requests == old(store.requests)
    {
      events := events + [e];
      store.events := store.events + [e];
    }

    /** `list_events`: reloads the stored events and returns them in order. */
    method ListEvents() returns (es: seq<AuditEvent>)
      modifies this
      ensures Valid() && es == store.events && events == store.events
    {
      events := store.events;
      es := events;
    }

    /** `clear`: no events, in memory or in the store. */
    method Clear()
      requires Valid()
      modifies this, store
      ensures Valid() && events == [] && store.requests == old(store.requests)
    {
      events := [];
      store.events := [];
    }
  }

  const ApprovalPrefix: string := "approval_"

  /** The number of an id of the form `"approval_N"`, when `N` parses as an integer. */
  function IdNumber(id: string): Option<int> {
    if StartsWith(id, ApprovalPrefix) then ParseInt(id[|ApprovalPrefix|..]) else None
  }

  /** The id the counter value `n` gives, `f"approval_{n}"`. */
  function RequestId(n: nat): string {
    ApprovalPrefix + NatToString(n)
  }

  /** `approval_N` numbers back to `N`, unless `N` has more digits than `int()` converts. */
  lemma IdNumberOfRequestId(n: nat)
    ensures IdNumber(RequestId(n)) == if |NatToString(n)| <= MaxStrDigits then Some(n) else None
  {
    assert RequestId(n)[..|ApprovalPrefix|] == ApprovalPrefix;
    assert RequestId(n)[|ApprovalPrefix|..] == NatToString(n);
    ParseNatToStringLimit(n);
  }

  /** The largest `num(id)` over `ids` in order, starting from 0; ids without a number are skipped. */
  function MaxNumber(ids: seq<string>, num: string -> Option<int>): nat {
    if ids == [] then 0
    else
      var m := MaxNumber(ids[..|ids| - 1], num);
      match num(ids[|ids| - 1])
      case None => m
      case Some(v) => if v > m then v else m
  }

  /** What `_infer_counter` computes: the largest approval number in use, or 0. */
  function CounterOf(ids: seq<string>): nat {
    MaxNumber(ids, IdNumber)
  }

  /** One more id raises the counter to its number when that is larger. */
  lemma CounterStep(ids: seq<string>, i: nat)
    requires i < |ids|
    ensures var m := CounterOf(ids[..i]);
      CounterOf(ids[..i + 1]) == if IdNumber(ids[i]).Some? && IdNumber(ids[i]).value > m then IdNumber(ids[i]).value else m
  {
    assert ids[..i + 1][..i] == ids[..i];
  }

  /** The result is at least every number. */
  lemma {:induction false} MaxNumberBounds(ids: seq<string>, num: string -> Option<int>)
    ensures forall i :: 0 <= i < |ids| && num(ids[i]).Some? ==> num(ids[i]).value <= MaxNumber(ids, num)
  {
    if ids != [] {
      var init := ids[..|ids| - 1];
      MaxNumberBounds(init, num);
      forall i | 0 <= i < |ids| && num(ids[i]).Some?
        ensures num(ids[i]).value <= MaxNumber(ids, num)
      {
        if i < |init| {
          assert init[i] == ids[i];
        }
      }
    }
  }

  /** A result above 0 is the number of some id: together with the bounds, it is the maximum. */
  lemma {:induction false} MaxNumberAttained(ids: seq<string>, num: string -> Option<int>)
    ensures MaxNumber(ids, num) == 0 || exists i :: 0 <= i < |ids| && num(ids[i]) == Some(MaxNumber(ids, num))
  {
    if ids != [] {
      var init := ids[..|ids| - 1];
      MaxNumberAttained(init, num);
      if MaxNumber(ids, num) != 0 && MaxNumber(ids, num) == MaxNumber(init, num) {
        var i :| 0 <= i < |init| && num(init[i]) == Some(MaxNumber(init, num));
        assert init[i] == ids[i];
      }
    }
  }

  /** One more id at the end: its number counts like any other. */
  lemma MaxNumberAppend(ids: seq<string>, x: string, num: string -> Option<int>)
    ensures MaxNumber(ids + [x], num) ==
      match num(x)
      case None => MaxNumber(ids, num)
      case Some(v) => if v > MaxNumber(ids, num) then v else MaxNumber(ids, num)
  {
    assert (ids + [x])[..|ids|] == ids;
  }

  /** Different counter values give different ids. */
  lemma RequestIdInjective(a: nat, b: nat)
    ensures RequestId(a) == RequestId(b) ==> a == b
  {
    if RequestId(a) == RequestId(b) {
      assert RequestId(a)[|ApprovalPrefix|..] == NatToString(a);
      assert RequestId(b)[|ApprovalPrefix|..] == NatToString(b);
      NatToStringInjective(a, b);
    }
  }

  /**
   * No id made from a counter value above `c` is a key of `m`, among the values `int()` can read
   * back: an id whose number is longer is skipped when the counter is inferred.
   */
  ghost predicate UnusedAfter(m: map<string, ApprovalRequest>, c: nat) {
    forall n: nat {:trigger RequestId(n)} :: n > c && |NatToString(n)| <= MaxStrDigits ==> RequestId(n) !in m
  }

  /** The inferred counter leaves every later id that `int()` can read back unused. */
  lemma CounterOfUnusedAfter(d: Dict<string, ApprovalRequest>)
    requires d.Valid()
    ensures UnusedAfter(d.m, CounterOf(d.keys))
  {
    MaxNumberBounds(d.keys, IdNumber);
    forall n: nat | n > CounterOf(d.keys) && |NatToString(n)| <= MaxStrDigits
      ensures RequestId(n) !in d.m
    {
      IdNumberOfRequestId(n);
    }
  }

  /** Storing a request under the id after `c` keeps the readable ids after `c + 1` unused. */
  lemma UnusedAfterPut(m: map<string, ApprovalRequest>, c: nat, r: ApprovalRequest)
    requires UnusedAfter(m, c) && r.requestId == RequestId(c + 1)
    ensures UnusedAfter(m[r.requestId := r], c + 1)
  {
    forall n: nat | n > c + 1 && |NatToString(n)| <= MaxStrDigits
      ensures RequestId(n) !in m[r.requestId := r]
    {
      RequestIdInjective(n, c + 1);
    }
  }

  /**
   * Taking one more id after the largest number moves the largest number on by one, while that
   * number is short enough for `int()` to read back.
   */
  lemma CounterOfNext(ids: seq<string>)
    requires |NatToString(CounterOf(ids) + 1)| <= MaxStrDigits
    ensures CounterOf(ids + [RequestId(CounterOf(ids) + 1)]) == CounterOf(ids) + 1
  {
    IdNumberOfRequestId(CounterOf(ids) + 1);
    MaxNumberAppend(ids, RequestId(CounterOf(ids) + 1), IdNumber);
  }

  /** The first ids, spelled out. */
  lemma FirstRequestIds()
    ensures RequestId(1) == "approval_1" && RequestId(2) == "approval_2" && RequestId(3) == "approval_3"
  {
  }

  /** `ApprovalService`: requests by id, and the counter the next id is made from. */
  class ApprovalService {
    const store: AuditStore
    var requests: Dict<string, ApprovalRequest>
    var counter: nat

    /** Memory and store agree, and no id the counter has yet to give is in use. */
    ghost predicate Valid()
      reads this, store
    {
      requests.Valid() && requests == store.requests && UnusedAfter(requests.m, counter)
    }

    /** A new service loads the stored requests and infers its counter from their ids. */
    constructor (store: AuditStore)
      requires store.Valid()
      ensures Valid() && this.store == store && requests == store.requests
      ensures counter == CounterOf(requests.keys)
    {
      this.store := store;
      requests := store.requests;
      new;
      counter := InferCounter();
      CounterOfUnusedAfter(requests);
    }

    /** `_infer_counter`: the maximum over the ids of the form `"approval_N"`, or 0. */
    method InferCounter() returns (m: nat)
      ensures m == CounterOf(requests.keys)
    {
      var ids := requests.keys;
      m := 0;
      var i := 0;
      while i < |ids|
        invariant 0 <= i <= |ids|
        invariant m == CounterOf(ids[..i])
      {
        var id := ids[i];
        CounterStep(ids, i);
        if StartsWith(id, ApprovalPrefix) {
          var n := ParseInt(id[|ApprovalPrefix|..]);
          if n.Some? && n.value > m {
            m := n.value;
          }
        }
        i := i + 1;
      }
      assert ids[..i] == ids;
    }

    /**
     * `submit`: the counter goes up by one and a pending request under `"approval_{counter}"` is
     * stored; that id was not in use whenever `int()` can read its number back.
     */
    method Submit(action: string, resourceId: string, actorId: string, now: string) returns (r: ApprovalRequest)
      requires Valid()
      modifies this, store
      ensures Valid() && counter == old(counter) + 1
      ensures r == ApprovalRequest(RequestId(counter), action, resourceId, actorId, "pending", now)
      ensures |NatToString(counter)| <= MaxStrDigits ==> r.requestId !in old(requests.m)
      ensures requests == old(requests).Put(r.requestId, r) && store.events == old(store.events)
    {
      var id := RequestId(counter + 1);
      r := ApprovalRequest(id, action, resourceId, actorId, "pending", now);
      UnusedAfterPut(requests.m, counter, r);
      var next := requests.Put(id, r);
      counter := counter + 1;
      requests := next;
      store.requests := requests;
    }

    /** The request under `id` given the new status, saved; an unknown id changes nothing. */
    method SetStatus(id: string, status: string) returns (r: Option<ApprovalRequest>)
      requires Valid()
      modifies this, store
      ensures Valid() && counter == old(counter) && store.events == old(store.events)
      ensures r.Some? <==> id in old(requests.m)
      ensures r.None? ==> requests == old(requests)
      ensures r.Some? ==> r.value == old(requests.m[id]).(status := status) && requests == old(requests).Put(id, r.value)
    {
      match requests.Get(id)
      case None =>
        r := None;
      case Some(req) =>
        var updated := req.(status := status);
        requests := requests.Put(id, updated);
        store.requests := requests;
        r := Some(updated);
    }

    /** `approve`. */
    method Approve(id: string) returns (r: Option<ApprovalRequest>)
      requires Valid()
      modifies this, store
      ensures Valid() && counter == old(counter) && store.events == old(store.events)
      ensures r.Some? <==> id in old(requests.m)
      ensures r.None? ==> requests == old(requests)
      ensures r.Some? ==> r.value == old(requests.m[id]).(status := "approved") && requests == old(requests).Put(id, r.value)
    {
      r := SetStatus(id, "approved");
    }

    /** `reject`. */
    method Reject(id: string) returns (r: Option<ApprovalRequest>)
      requires Valid()
      modifies this, store
      ensures Valid() && counter == old(counter) && store.events == old(store.events)
      ensures r.Some? <==> id in old(requests.m)
      ensures r.None? ==> requests == old(requests)
      ensures r.Some? ==> r.value == old(requests.m[id]).(status := "rejected") && requests == old(requests).Put(id, r.value)
    {
      r := SetStatus(id, "rejected");
    }

    /** `get`. */
    function Get(id: string): (r: Option<ApprovalRequest>)
      reads this
      ensures r.Some? <==> id in requests.m
      ensures r.Some? ==> r.value == requests.m[id]
    {
      requests.Get(id)
    }

    /** `clear`: no requests, in memory or in the store, and the counter back at 0. */
    method Clear()
      requires Valid()
      modifies this, store
      ensures Valid() && requests == EmptyDict() && counter == 0 && store.events == old(store.events)
    {
      requests := EmptyDict();
      counter := 0;
      store.requests := requests;
    }
  }

  /** Submits one after another take consecutive ids, whatever the counter starts from. */
  method SubmitThree(approvals: ApprovalService, actions: seq<(string, string)>, actorId: string, now: string)
    returns (rs: seq<ApprovalRequest>)
    requires approvals.Valid() && |actions| == 3
    modifies approvals, approvals.store
    ensures approvals.counter == old(approvals.counter) + 3
    ensures |rs| == 3
    ensures rs[0] == ApprovalRequest(RequestId(old(approvals.counter) + 1), actions[0].0, actions[0].1, actorId, "pending", now)
    ensures rs[1] == ApprovalRequest(RequestId(old(approvals.counter) + 2), actions[1].0, actions[1].1, actorId, "pending", now)
    ensures rs[2] == ApprovalRequest(RequestId(old(approvals.counter) + 3), actions[2].0, actions[2].1, actorId, "pending", now)
  {
    var a := approvals.Submit(actions[0].0, actions[0].1, actorId, now);
    var b := approvals.Submit(actions[1].0, actions[1].1, actorId, now);
    var c := approvals.Submit(actions[2].0, actions[2].1, actorId, now);
    rs := [a, b, c];
  }

  /** On a fresh store, three submits are numbered `approval_1`, `approval_2`, `approval_3`. */
  method ThreeSubmits() returns (ids: seq<string>)
    ensures ids == ["approval_1", "approval_2", "approval_3"]
  {
    var store := new AuditStore();
    var approvals := new ApprovalService(store);
    assert approvals.counter == 0;
    var rs := SubmitThree(approvals, [("tool.execute", "tool:calculator"), ("agent.execute", "agent:finance_agent"),
      ("workflow.execute", "workflow:workflow")], "system", "t0");
    ids := [rs[0].requestId, rs[1].requestId, rs[2].requestId];
    assert ids == [RequestId(1), RequestId(2), RequestId(3)];
    FirstRequestIds();
  }

  /**
   * A service reopened on `store` finds what the store holds, and its first submit takes the id
   * after the counter it infers.
   */
  method Reopen(store: AuditStore, id: string) returns (found: Option<ApprovalRequest>, nextId: string)
    requires store.Valid()
    modifies store
    ensures found == old(store.requests).Get(id)
    ensures nextId == RequestId(CounterOf(old(store.requests.keys)) + 1)
  {
    var approvals := new ApprovalService(store);
    found := approvals.Get(id);
    var next := approvals.Submit("tool.execute", "tool:y", "alice", "t1");
    nextId := next.requestId;
  }

  /**
   * A recorded event and a submitted request survive a restart on the same store: the new log
   * lists the event last, the new service finds the request still pending, and its next id
   * continues the count while the submitted number has at most `MaxStrDigits` digits.
   */
  method Restart(store: AuditStore, e: AuditEvent)
    returns (lastEvent: AuditEvent, submitted: ApprovalRequest, found: Option<ApprovalRequest>, nextId: string)
    requires store.Valid()
    modifies store
    ensures lastEvent == e
    ensures found == Some(submitted) && submitted.status == "pending"
    ensures submitted.requestId == RequestId(CounterOf(old(store.requests.keys)) + 1)
    ensures |NatToString(CounterOf(old(store.requests.keys)) + 1)| <= MaxStrDigits ==>
      nextId == RequestId(CounterOf(old(store.requests.keys)) + 2)
  {
    var log := new AuditLog(store);
    log.Record(e);
    var approvals := new ApprovalService(store);
    ghost var keys := approvals.requests.keys;
    submitted := approvals.Submit("tool.execute", "tool:x", "alice", "t0");
    ghost var n := approvals.counter;
    assert submitted.requestId == RequestId(n);
    var log2 := new AuditLog(store);
    var es := log2.ListEvents();
    lastEvent := es[|es| - 1];
    ghost var stored := store.requests;
    found, nextId := Reopen(store, submitted.requestId);
    if |NatToString(n)| <= MaxStrDigits {
      assert n == CounterOf(keys) + 1;
      assert stored.keys == keys + [RequestId(n)];
      CounterOfNext(keys);
      assert nextId == RequestId(n + 1);
    }
  }
}
