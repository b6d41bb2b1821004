/**
 * The in-memory episodic memory: a bounded store of agent episodes keyed by id, which drops its
 * oldest episode when it grows past its limit, and the queries over it (by agent, by task words,
 * success rate, recurring task patterns).
 *
 * Timestamps are clock readings as numbers, so that comparing two of them compares the times;
 * episode ids and the clock are inputs of `StoreEpisode`.
 */
module Episodic {
  import opened Results
  import opened Text
  import opened Json
  import opened Dicts
  import opened Sequences

  datatype Episode = Episode(
    id: string,
    agentId: string,
    task: string,
    actions: seq<Json>,
    outcome: Json,
    timestamp: int,
    duration: real,
    success: bool,
    metadata: Json)

  /** `task.lower()`, the key episodes are matched and grouped by. */
  function TaskKey(e: Episode): string {
    Lower(e.task)
  }

  /** The filters the queries apply to the stored episodes. */
  datatype Criterion =
    | OfAgent(agent: string)
    | NotOfAgent(other: string)
    | Succeeded
    | MentionsAnyWord(words: seq<string>)
    | MentionsText(pattern: string)
    | HasTaskKey(taskKey: string)

  /** `any(word in key for word in words)`. */
  predicate MentionsAny(key: string, words: seq<string>) {
    exists i :: 0 <= i < |words| && Contains(key, words[i])
  }

  predicate Meets(e: Episode, c: Criterion) {
    match c
    case OfAgent(a) => e.agentId == a
    case NotOfAgent(a) => e.agentId != a
    case Succeeded => e.success
    case MentionsAnyWord(words) => MentionsAny(TaskKey(e), words)
    case MentionsText(p) => Contains(TaskKey(e), p)
    case HasTaskKey(k) => TaskKey(e) == k
  }

  /** `[e for e in s if ...]`: the episodes that meet the criterion, in their order. */
  function Select(s: seq<Episode>, c: Criterion): (r: seq<Episode>)
    ensures |r| <= |s|
    ensures forall e :: e in r <==> e in s && Meets(e, c)
  {
    if s == [] then []
    else
      assert s == s[..|s| - 1] + [s[|s| - 1]];
      Select(s[..|s| - 1], c) + (if Meets(s[|s| - 1], c) then [s[|s| - 1]] else [])
  }

  lemma SelectSnoc(s: seq<Episode>, x: Episode, c: Criterion)
    ensures Select(s + [x], c) == Select(s, c) + (if Meets(x, c) then [x] else [])
  {
    assert (s + [x])[..|s|] == s;
  }

  /** Every episode meets the criterion exactly when the selection drops none. */
  lemma {:induction false} SelectKeepsAll(s: seq<Episode>, c: Criterion)
    ensures |Select(s, c)| == |s| <==> forall e :: e in s ==> Meets(e, c)
  {
    if s != [] {
      var t := s[..|s| - 1];
      assert s == t + [s[|s| - 1]];
      SelectKeepsAll(t, c);
      assert |Select(t, c)| <= |t|;
    }
  }

  /** Nothing is selected when no episode meets the criterion. */
  lemma {:induction false} SelectNone(s: seq<Episode>, c: Criterion)
    requires forall e :: e in s ==> !Meets(e, c)
    ensures Select(s, c) == []
  {
    if s != [] {
      SelectNone(s[..|s| - 1], c);
    }
  }

  /** `a` given and non-empty, as `if agent_id:` tests it. */
  predicate Given(a: Option<string>) {
    a.Some? && a.value != ""
  }

  /** `n / d` for counts, with `0.0` when there is nothing to count. */
  function Ratio(n: nat, d: nat): (r: real)
    ensures d == 0 ==> r == 0.0
    ensures n <= d ==> 0.0 <= r <= 1.0
    ensures r == 0.0 <==> n == 0 || d == 0
    ensures d > 0 ==> (r == 1.0 <==> n == d)
  {
    if d == 0 then 0.0
    else
      var q := n as real / d as real;
      assert q * (d as real) == n as real;
      q
  }

  // ---------------------------------------------------------------- storing

  /** `min(keys, key=timestamp)`: the first key, in order, whose episode has the least timestamp. */
  function Oldest(keys: seq<string>, m: map<string, Episode>): (k: string)
    requires keys != [] && forall k :: k in keys ==> k in m
    ensures k in keys
    ensures forall j :: 0 <= j < |keys| ==> m[k].timestamp <= m[keys[j]].timestamp
  {
    if |keys| == 1 then keys[0]
    else
      var later := Oldest(keys[1..], m);
      if m[keys[0]].timestamp <= m[later].timestamp then keys[0] else later
  }

  /** Python's `min` keeps the first of several least timestamps. */
  lemma {:induction false} OldestIsFirst(keys: seq<string>, m: map<string, Episode>)
    requires keys != [] && forall k :: k in keys ==> k in m
    ensures exists i :: 0 <= i < |keys| && keys[i] == Oldest(keys, m) &&
                        forall j :: 0 <= j < i ==> m[keys[j]].timestamp > m[keys[i]].timestamp
  {
    if |keys| > 1 {
      var later := Oldest(keys[1..], m);
      if m[keys[0]].timestamp > m[later].timestamp {
        OldestIsFirst(keys[1..], m);
        var i :| 0 <= i < |keys[1..]| && keys[1..][i] == later &&
          forall j :: 0 <= j < i ==> m[keys[1..][j]].timestamp > m[keys[1..][i]].timestamp;
        assert keys[i + 1] == later;
        forall j | 0 <= j < i + 1
          ensures m[keys[j]].timestamp > m[keys[i + 1]].timestamp
        {
          if j > 0 {
            assert keys[j] == keys[1..][j - 1];
          }
        }
      } else {
        assert keys[0] == Oldest(keys, m);
      }
    } else {
      assert keys[0] == Oldest(keys, m);
    }
  }

  /** The store with the well-formedness `Valid` keeps: each episode lives under its own id. */
  ghost predicate Keyed(d: Dict<string, Episode>) {
    d.Valid() && forall k :: k in d.m ==> d.m[k].id == k
  }

  /** `store_episode`'s in-memory branch: file the episode, then drop the oldest one if over the limit. */
  function Admit(d: Dict<string, Episode>, e: Episode, maxEpisodes: int): (r: Dict<string, Episode>)
    requires Keyed(d)
    ensures Keyed(r)
  {
    var added := d.Put(e.id, e);
    if added.Size() > maxEpisodes then added.Remove(Oldest(added.keys, added.m)) else added
  }

  /**
   * Within the limit the episode is simply filed; past it, exactly one episode goes, and it is one
   * with the least timestamp.
   */
  lemma AdmitEvictsOneOldest(d: Dict<string, Episode>, e: Episode, maxEpisodes: int)
    requires Keyed(d)
    ensures var added := d.Put(e.id, e);
      && (added.Size() <= maxEpisodes ==> Admit(d, e, maxEpisodes) == added)
      && (added.Size() > maxEpisodes ==>
            exists k :: k in added.m
              && Admit(d, e, maxEpisodes).m == added.m - {k}
              && Admit(d, e, maxEpisodes).Size() == added.Size() - 1
              && forall k' :: k' in added.m ==> added.m[k].timestamp <= added.m[k'].timestamp)
  {
    var added := d.Put(e.id, e);
    if added.Size() > maxEpisodes {
      var k := Oldest(added.keys, added.m);
      RemoveAllLength(added.keys, k);
      forall k' | k' in added.m
        ensures added.m[k].timestamp <= added.m[k'].timestamp
      {
        var j :| 0 <= j < |added.keys| && added.keys[j] == k';
      }
    }
  }

  /** A store within its limit stays within it. */
  lemma AdmitKeepsBound(d: Dict<string, Episode>, e: Episode, maxEpisodes: int)
    requires Keyed(d) && d.Size() <= maxEpisodes
    ensures Admit(d, e, maxEpisodes).Size() <= maxEpisodes
  {
    var added := d.Put(e.id, e);
    assert added.Size() <= d.Size() + 1;
    AdmitEvictsOneOldest(d, e, maxEpisodes);
  }

  /** An episode newer than every stored one, under a new id, is kept when the limit is positive. */
  lemma NewestSurvives(d: Dict<string, Episode>, e: Episode, maxEpisodes: int)
    requires Keyed(d) && maxEpisodes >= 1 && e.id !in d.m
    requires forall k :: k in d.m ==> d.m[k].timestamp < e.timestamp
    ensures e.id in Admit(d, e, maxEpisodes).m && Admit(d, e, maxEpisodes).m[e.id] == e
  {
    var added := d.Put(e.id, e);
    if added.Size() > maxEpisodes {
      var k := Oldest(added.keys, added.m);
      assert |added.keys| >= 2;
      assert added.keys == d.keys + [e.id];
      assert added.m[k].timestamp <= added.m[added.keys[0]].timestamp;
    }
  }

  // ---------------------------------------------------------------- queries

  function Recency(e: Episode): SortKey {
    SortKey(e.timestamp, 0)
  }

  /** The key `(success, timestamp)`, with `True` above `False` as in Python. */
  function SuccessThenRecency(e: Episode): SortKey {
    SortKey(if e.success then 1 else 0, e.timestamp)
  }

  /** The episodes `retrieve_by_agent` chooses from, in store order. */
  function AgentEpisodes(values: seq<Episode>, agentId: string, successOnly: bool): (r: seq<Episode>)
    ensures forall e :: e in r <==> e in values && e.agentId == agentId && (successOnly ==> e.success)
  {
    var mine := Select(values, OfAgent(agentId));
    if successOnly then Select(mine, Succeeded) else mine
  }

  /** `retrieve_by_agent`: that agent's episodes, most recent first, cut to `limit`. */
  function ByAgent(values: seq<Episode>, agentId: string, limit: int, successOnly: bool): (r: seq<Episode>)
    ensures forall e :: e in r ==> e in values && e.agentId == agentId && (successOnly ==> e.success)
    ensures limit >= 0 ==> |r| <= limit
  {
    var r := Prefix(SortDesc(AgentEpisodes(values, agentId, successOnly), Recency), limit);
    assert forall e :: e in r ==> e in multiset(AgentEpisodes(values, agentId, successOnly));
    r
  }

  /**
   * `retrieve_by_agent` returns the most recent matching episodes, newest first: none of the
   * matching episodes it leaves out is newer than one it returns, and with a large enough limit
   * it returns all of them.
   */
  lemma ByAgentMostRecent(values: seq<Episode>, agentId: string, limit: int, successOnly: bool)
    ensures var r := ByAgent(values, agentId, limit, successOnly);
      var chosen := AgentEpisodes(values, agentId, successOnly);
      && (forall i, j :: 0 <= i < j < |r| ==> r[j].timestamp <= r[i].timestamp)
      && (forall e, f :: e in r && f in chosen && f !in r ==> f.timestamp <= e.timestamp)
      && (limit >= |chosen| ==> multiset(r) == multiset(chosen))
  {
    var chosen := AgentEpisodes(values, agentId, successOnly);
    var r := ByAgent(values, agentId, limit, successOnly);
    TopRanked(chosen, Recency, limit);
    forall i, j | 0 <= i < j < |r|
      ensures r[j].timestamp <= r[i].timestamp
    {
      assert KeyLe(Recency(r[j]), Recency(r[i]));
    }
    forall e, f | e in r && f in chosen && f !in r
      ensures f.timestamp <= e.timestamp
    {
      assert KeyLe(Recency(f), Recency(e));
    }
  }

  /** The episodes `retrieve_similar_tasks` chooses from: a word of the query occurs in the task. */
  function SimilarEpisodes(values: seq<Episode>, task: string): (r: seq<Episode>)
    ensures forall e :: e in r <==> (e in values && MentionsAny(TaskKey(e), Words(Lower(task))))
  {
    Select(values, MentionsAnyWord(Words(Lower(task))))
  }

  /** `retrieve_similar_tasks`: successful episodes first, then the most recent, cut to `limit`. */
  function Similar(values: seq<Episode>, task: string, limit: int): (r: seq<Episode>)
    ensures forall e :: e in r ==> e in SimilarEpisodes(values, task)
    ensures limit >= 0 ==> |r| <= limit
  {
    var r := Prefix(SortDesc(SimilarEpisodes(values, task), SuccessThenRecency), limit);
    assert forall e :: e in r ==> e in multiset(SimilarEpisodes(values, task));
    r
  }

  /**
   * `retrieve_similar_tasks` ranks by `(success, timestamp)`: successes come before failures,
   * each run newest first, and nothing left out ranks above anything returned.
   */
  lemma SimilarRanked(values: seq<Episode>, task: string, limit: int)
    ensures var r := Similar(values, task, limit);
      var matching := SimilarEpisodes(values, task);
      && (forall i, j :: 0 <= i < j < |r| ==> r[j].success ==> r[i].success)
      && (forall i, j :: 0 <= i < j < |r| && r[i].success == r[j].success ==> r[j].timestamp <= r[i].timestamp)
      && (forall e, f :: e in r && f in matching && f !in r ==> KeyLe(SuccessThenRecency(f), SuccessThenRecency(e)))
      && (limit >= |matching| ==> multiset(r) == multiset(matching))
  {
    var matching := SimilarEpisodes(values, task);
    var r := Similar(values, task, limit);
    TopRanked(matching, SuccessThenRecency, limit);
    forall i, j | 0 <= i < j < |r|
      ensures (r[j].success ==> r[i].success)
      ensures r[i].success == r[j].success ==> r[j].timestamp <= r[i].timestamp
    {
      assert KeyLe(SuccessThenRecency(r[j]), SuccessThenRecency(r[i]));
    }
  }

  /** A query with no words (empty or all whitespace) finds nothing. */
  lemma BlankQueryFindsNothing(values: seq<Episode>, task: string, limit: int)
    requires AllSpace(task)
    ensures Similar(values, task, limit) == []
  {
    var t := Lower(task);
    assert AllSpace(t) by {
      forall i | 0 <= i < |t|
        ensures IsSpace(t[i])
      {
        assert t[i] == LowerChar(task[i]);
      }
    }
    assert Words(t) == [];
    SelectNone(values, MentionsAnyWord([]));
  }

  /** The episodes `get_success_rate` counts: the agent's, then those whose task mentions the pattern. */
  function RateScope(values: seq<Episode>, agentId: Option<string>, taskPattern: Option<string>): (r: seq<Episode>)
    ensures forall e :: e in r <==> (
      && e in values
      && (Given(agentId) ==> e.agentId == agentId.value)
      && (Given(taskPattern) ==> Contains(TaskKey(e), Lower(taskPattern.value))))
  {
    var scoped := if Given(agentId) then Select(values, OfAgent(agentId.value)) else values;
    if Given(taskPattern) then Select(scoped, MentionsText(Lower(taskPattern.value))) else scoped
  }

  /** `get_success_rate`: the share of counted episodes that succeeded, `0.0` when none is counted. */
  function SuccessRate(values: seq<Episode>, agentId: Option<string>, taskPattern: Option<string>): (r: real)
    ensures 0.0 <= r <= 1.0
    ensures RateScope(values, agentId, taskPattern) == [] ==> r == 0.0
  {
    var scope := RateScope(values, agentId, taskPattern);
    var successes := Select(scope, Succeeded);
    Ratio(|successes|, |scope|)
  }

  /**
   * The rate is `0.0` exactly when no counted episode succeeded, and `1.0` exactly when some
   * episode is counted and every counted one succeeded.
   */
  lemma RateExtremes(values: seq<Episode>, agentId: Option<string>, taskPattern: Option<string>)
    ensures var scope := RateScope(values, agentId, taskPattern);
      && (SuccessRate(values, agentId, taskPattern) == 0.0 <==> forall e :: e in scope ==> !e.success)
      && (SuccessRate(values, agentId, taskPattern) == 1.0 <==> scope != [] && forall e :: e in scope ==> e.success)
  {
    var scope := RateScope(values, agentId, taskPattern);
    var successes := Select(scope, Succeeded);
    SelectKeepsAll(scope, Succeeded);
    assert successes == [] <==> forall e :: e in scope ==> !e.success by {
      if successes != [] {
        assert successes[0] in successes;
      }
    }
  }

  /** Once something is counted, the rate is successful matches over matches. */
  lemma RateIsShare(values: seq<Episode>, agentId: Option<string>, taskPattern: Option<string>)
    requires RateScope(values, agentId, taskPattern) != []
    ensures SuccessRate(values, agentId, taskPattern)
      == (|Select(RateScope(values, agentId, taskPattern), Succeeded)| as real)
         / (|RateScope(values, agentId, taskPattern)| as real)
  {
  }

  // ---------------------------------------------------------------- patterns

  /** One entry of `get_patterns`: the task key and its statistics. */
  datatype Pattern = Pattern(task: string, occurrences: nat, successRate: real, avgDuration: real, lastSeen: int)

  function ByOccurrences(p: Pattern): SortKey {
    SortKey(p.occurrences, 0)
  }

  /** The episodes `get_patterns` groups: the agent's when an agent is given. */
  function PatternScope(values: seq<Episode>, agentId: Option<string>): (r: seq<Episode>)
    ensures forall e :: e in r <==> e in values && (Given(agentId) ==> e.agentId == agentId.value)
  {
    if Given(agentId) then Select(values, OfAgent(agentId.value)) else values
  }

  /** The group of a task key: the episodes with that key, in order. */
  function TaskGroup(eps: seq<Episode>, k: string): seq<Episode> {
    Select(eps, HasTaskKey(k))
  }

  /** The task keys in the order they first occur. */
  function TaskKeys(eps: seq<Episode>): (ks: seq<string>)
    ensures Distinct(ks)
    ensures forall k :: k in ks <==> exists e :: e in eps && TaskKey(e) == k
  {
    if eps == [] then []
    else
      assert eps == eps[..|eps| - 1] + [eps[|eps| - 1]];
      var ks := TaskKeys(eps[..|eps| - 1]);
      var k := TaskKey(eps[|eps| - 1]);
      if k in ks then ks else ks + [k]
  }

  function TotalDuration(s: seq<Episode>): real {
    if s == [] then 0.0 else TotalDuration(s[..|s| - 1]) + s[|s| - 1].duration
  }

  /** `max(ep.timestamp for ep in s)`, `0` for no episodes. */
  function Latest(s: seq<Episode>): (t: int)
    ensures forall e :: e in s ==> e.timestamp <= t
    ensures s != [] ==> exists e :: e in s && e.timestamp == t
  {
    if s == [] then 0
    else if |s| == 1 then s[0].timestamp
    else
      assert s == s[..|s| - 1] + [s[|s| - 1]];
      var t := Latest(s[..|s| - 1]);
      if s[|s| - 1].timestamp > t then s[|s| - 1].timestamp else t
  }

  /** The statistics of one group: its size, success rate, mean duration and latest timestamp. */
  function Summarize(k: string, group: seq<Episode>): (p: Pattern)
    ensures p.task == k && p.occurrences == |group|
    ensures 0.0 <= p.successRate <= 1.0
    ensures group != [] ==> exists e :: e in group && e.timestamp == p.lastSeen
  {
    Pattern(k, |group|, Ratio(|Select(group, Succeeded)|, |group|),
            if group == [] then 0.0 else TotalDuration(group) / (|group| as real), Latest(group))
  }

  /** The patterns of the groups under `keys`, in that order, of those with at least `minOccurrences` episodes. */
  function Collect(keys: seq<string>, eps: seq<Episode>, minOccurrences: int): seq<Pattern> {
    if keys == [] then []
    else
      var k := keys[|keys| - 1];
      var group := TaskGroup(eps, k);
      Collect(keys[..|keys| - 1], eps, minOccurrences) + (if |group| >= minOccurrences then [Summarize(k, group)] else [])
  }

  /** Each collected pattern summarizes the group of one of `keys`, a group large enough. */
  lemma {:induction false} CollectSound(keys: seq<string>, eps: seq<Episode>, minOccurrences: int)
    ensures forall p :: p in Collect(keys, eps, minOccurrences) ==>
      p.task in keys && p.occurrences == |TaskGroup(eps, p.task)| && p.occurrences >= minOccurrences
  {
    if keys != [] {
      var init := keys[..|keys| - 1];
      assert keys == init + [keys[|keys| - 1]];
      CollectSound(init, eps, minOccurrences);
    }
  }

  /** Every key of `keys` whose group is large enough has its summary collected. */
  lemma {:induction false} CollectComplete(keys: seq<string>, eps: seq<Episode>, minOccurrences: int)
    ensures forall k :: k in keys && |TaskGroup(eps, k)| >= minOccurrences ==>
      Summarize(k, TaskGroup(eps, k)) in Collect(keys, eps, minOccurrences)
  {
    if keys != [] {
      var init := keys[..|keys| - 1];
      assert keys == init + [keys[|keys| - 1]];
      CollectComplete(init, eps, minOccurrences);
    }
  }

  /** A key not met before is appended to the keys of `eps[..i]`, giving those of `eps[..i + 1]`. */
  lemma KeysStep(keys: seq<string>, eps: seq<Episode>, i: nat)
    requires i < |eps| && keys == TaskKeys(eps[..i])
    ensures TaskKeys(eps[..i + 1]) == if TaskKey(eps[i]) in keys then keys else keys + [TaskKey(eps[i])]
  {
    assert eps[..i + 1][..i] == eps[..i];
  }

  /** `groups` holds the episodes of `s` grouped by task key, keys in first-occurrence order. */
  ghost predicate Grouping(groups: Dict<string, seq<Episode>>, s: seq<Episode>) {
    && groups.Valid() && groups.keys == TaskKeys(s)
    && forall k :: k in groups.m ==> groups.m[k] == TaskGroup(s, k)
  }

  /** The group `eps[i]` joins: its key's group so far, or a new empty one. */
  function GroupOf(groups: Dict<string, seq<Episode>>, k: string): seq<Episode> {
    if k in groups.m then groups.m[k] else []
  }

  /**
   * Adding `eps[i]` to the grouping of `eps[..i]` in the way `get_patterns` does gives the
   * grouping of `eps[..i + 1]`.
   */
  lemma GroupStep(before: Dict<string, seq<Episode>>, eps: seq<Episode>, i: nat)
    requires i < |eps| && Grouping(before, eps[..i])
    ensures Grouping(before.Put(TaskKey(eps[i]), GroupOf(before, TaskKey(eps[i])) + [eps[i]]), eps[..i + 1])
  {
    var k := TaskKey(eps[i]);
    var after := before.Put(k, GroupOf(before, k) + [eps[i]]);
    KeysStep(before.keys, eps, i);
    GroupMapStep(before.m, after.m, eps, i);
  }

  lemma GroupMapStep(before: map<string, seq<Episode>>, after: map<string, seq<Episode>>, eps: seq<Episode>, i: nat)
    requires i < |eps|
    requires forall k :: k in before ==> before[k] == TaskGroup(eps[..i], k)
    requires forall k :: k !in before ==> k !in TaskKeys(eps[..i])
    requires after == before[TaskKey(eps[i]) := (if TaskKey(eps[i]) in before then before[TaskKey(eps[i])] else []) + [eps[i]]]
    ensures forall k :: k in after ==> after[k] == TaskGroup(eps[..i + 1], k)
  {
    var s, x := eps[..i], eps[i];
    assert eps[..i + 1] == s + [x];
    forall k | k in after
      ensures after[k] == TaskGroup(s + [x], k)
    {
      SelectSnoc(s, x, HasTaskKey(k));
      if k !in before {
        SelectNone(s, HasTaskKey(k));
      }
    }
  }

  /** The first loop of `get_patterns`: the episodes grouped by task key, keys in first-occurrence order. */
  method GroupByTask(eps: seq<Episode>) returns (groups: Dict<string, seq<Episode>>)
    ensures Grouping(groups, eps)
  {
    groups := EmptyDict();
    var i := 0;
    while i < |eps|
      invariant 0 <= i <= |eps| && Grouping(groups, eps[..i])
    {
      var k := TaskKey(eps[i]);
      GroupStep(groups, eps, i);
      // A key seen for the first time starts an empty group; the episode joins its group.
      groups := groups.Put(k, GroupOf(groups, k) + [eps[i]]);
      i := i + 1;
    }
    assert eps[..i] == eps;
  }

  lemma CollectSnoc(keys: seq<string>, j: nat, eps: seq<Episode>, minOccurrences: int)
    requires j < |keys|
    ensures var group := TaskGroup(eps, keys[j]);
      Collect(keys[..j + 1], eps, minOccurrences)
        == Collect(keys[..j], eps, minOccurrences) + (if |group| >= minOccurrences then [Summarize(keys[j], group)] else [])
  {
    assert keys[..j + 1][..j] == keys[..j];
  }

  /** The second loop of `get_patterns`: the summary of every group large enough, in key order. */
  method SummarizeGroups(groups: Dict<string, seq<Episode>>, eps: seq<Episode>, minOccurrences: int)
    returns (patterns: seq<Pattern>)
    requires groups.Valid()
    requires forall k :: k in groups.m ==> groups.m[k] == TaskGroup(eps, k)
    ensures patterns == Collect(groups.keys, eps, minOccurrences)
  {
    patterns := [];
    var j := 0;
    while j < |groups.keys|
      invariant 0 <= j <= |groups.keys|
      invariant patterns == Collect(groups.keys[..j], eps, minOccurrences)
    {
      var k := groups.keys[j];
      var group := groups.m[k];
      CollectSnoc(groups.keys, j, eps, minOccurrences);
      if |group| >= minOccurrences {
        patterns := patterns + [Summarize(k, group)];
      }
      j := j + 1;
    }
    assert groups.keys[..j] == groups.keys;
  }

  /** `get_patterns` after the scope: the groups' patterns, most frequent first. */
  function PatternsOf(eps: seq<Episode>, minOccurrences: int): seq<Pattern> {
    SortDesc(Collect(TaskKeys(eps), eps, minOccurrences), ByOccurrences)
  }

  /** The patterns are sorted by occurrences, most frequent first. */
  lemma PatternsSorted(eps: seq<Episode>, minOccurrences: int)
    ensures var ps := PatternsOf(eps, minOccurrences);
      forall i, j :: 0 <= i < j < |ps| ==> ps[j].occurrences <= ps[i].occurrences
  {
    var ps := PatternsOf(eps, minOccurrences);
    SortDescSorted(Collect(TaskKeys(eps), eps, minOccurrences), ByOccurrences);
    forall i, j | 0 <= i < j < |ps|
      ensures ps[j].occurrences <= ps[i].occurrences
    {
      assert KeyLe(ByOccurrences(ps[j]), ByOccurrences(ps[i]));
    }
  }

  /**
   * Each pattern is a task key that occurs, with as many occurrences as episodes share that key,
   * at least `minOccurrences` and at least one.
   */
  lemma PatternsCountGroups(eps: seq<Episode>, minOccurrences: int)
    ensures forall p :: p in PatternsOf(eps, minOccurrences) ==>
      && p.occurrences == |TaskGroup(eps, p.task)|
      && p.occurrences >= minOccurrences && p.occurrences >= 1
      && exists e :: e in eps && TaskKey(e) == p.task
  {
    var collected := Collect(TaskKeys(eps), eps, minOccurrences);
    forall p | p in PatternsOf(eps, minOccurrences)
      ensures p.occurrences == |TaskGroup(eps, p.task)|
      ensures p.occurrences >= minOccurrences && p.occurrences >= 1
      ensures exists e :: e in eps && TaskKey(e) == p.task
    {
      assert p in multiset(collected);
      CollectedPattern(eps, minOccurrences, p);
    }
  }

  lemma CollectedPattern(eps: seq<Episode>, minOccurrences: int, p: Pattern)
    requires p in Collect(TaskKeys(eps), eps, minOccurrences)
    ensures p.occurrences == |TaskGroup(eps, p.task)|
    ensures p.occurrences >= minOccurrences && p.occurrences >= 1
    ensures exists e :: e in eps && TaskKey(e) == p.task
  {
    var keys := TaskKeys(eps);
    CollectSound(keys, eps, minOccurrences);
    var e :| e in eps && TaskKey(e) == p.task;
    assert e in TaskGroup(eps, p.task);
  }

  /** Every task key that occurs at least `minOccurrences` times has a pattern. */
  lemma PatternsComplete(eps: seq<Episode>, minOccurrences: int)
    ensures forall e :: e in eps && |TaskGroup(eps, TaskKey(e))| >= minOccurrences ==>
      exists p :: p in PatternsOf(eps, minOccurrences) && p.task == TaskKey(e)
  {
    var keys := TaskKeys(eps);
    var collected := Collect(keys, eps, minOccurrences);
    CollectComplete(keys, eps, minOccurrences);
    forall e | e in eps && |TaskGroup(eps, TaskKey(e))| >= minOccurrences
      ensures exists p :: p in PatternsOf(eps, minOccurrences) && p.task == TaskKey(e)
    {
      var p := Summarize(TaskKey(e), TaskGroup(eps, TaskKey(e)));
      assert TaskKey(e) in keys;
      assert p in collected;
      assert p in multiset(PatternsOf(eps, minOccurrences));
    }
  }

  // ---------------------------------------------------------------- the store

  /** `_decode_episode_value`: `None` and undecodable text give the fallback; other values stay. */
  function DecodeValue(value: Json, fallback: Json, loads: string -> Result<Json>): (r: Json)
    ensures value == JNull ==> r == fallback
    ensures value.JStr? && loads(value.s).Err? ==> r == fallback
    ensures value.JStr? && loads(value.s).Ok? ==> r == loads(value.s).value
    ensures !value.JNull? && !value.JStr? ==> r == value
  {
    match value
    case JNull => fallback
    case JStr(text) => if loads(text).Ok? then loads(text).value else fallback
    case _ => value
  }

  /** A value stored as its JSON text decodes back to itself. */
  lemma DecodeOfEncoded(v: Json, fallback: Json, dumps: Json -> string, loads: string -> Result<Json>)
    requires loads(dumps(v)) == Ok(v)
    ensures DecodeValue(JStr(dumps(v)), fallback, loads) == v
  {
  }

  /** The keys of the episodes of agents other than `a`, in order. */
  function KeepKeys(keys: seq<string>, m: map<string, Episode>, a: string): (r: seq<string>)
    requires forall k :: k in keys ==> k in m
    ensures forall k :: k in r <==> k in keys && m[k].agentId != a
    ensures Distinct(keys) ==> Distinct(r)
  {
    if keys == [] then []
    else
      var init := keys[..|keys| - 1];
      var k := keys[|keys| - 1];
      assert keys == init + [k];
      KeepKeys(init, m, a) + (if m[k].agentId != a then [k] else [])
  }

  /** The values under `keys`, in that order. */
  function ValuesOf(keys: seq<string>, m: map<string, Episode>): (vs: seq<Episode>)
    requires forall k :: k in keys ==> k in m
    ensures |vs| == |keys| && forall i :: 0 <= i < |keys| ==> vs[i] == m[keys[i]]
  {
    if keys == [] then []
    else
      var init := keys[..|keys| - 1];
      assert keys == init + [keys[|keys| - 1]];
      ValuesOf(init, m) + [m[keys[|keys| - 1]]]
  }

  lemma ValuesOfSnoc(keys: seq<string>, k: string, m: map<string, Episode>)
    requires forall k' :: k' in keys ==> k' in m
    requires k in m
    ensures ValuesOf(keys + [k], m) == ValuesOf(keys, m) + [m[k]]
  {
    assert (keys + [k])[..|keys|] == keys;
  }

  lemma {:induction false} KeepKeysValues(keys: seq<string>, m: map<string, Episode>, a: string)
    requires forall k :: k in keys ==> k in m
    ensures ValuesOf(KeepKeys(keys, m, a), m) == Select(ValuesOf(keys, m), NotOfAgent(a))
  {
    if keys != [] {
      var init := keys[..|keys| - 1];
      var k := keys[|keys| - 1];
      assert keys == init + [k];
      KeepKeysValues(init, m, a);
      KeepValuesStep(init, k, m, a);
    }
  }

  /** One more key keeps the values of the kept keys equal to the selected values. */
  lemma KeepValuesStep(init: seq<string>, k: string, m: map<string, Episode>, a: string)
    requires forall k' :: k' in init ==> k' in m
    requires k in m
    requires ValuesOf(KeepKeys(init, m, a), m) == Select(ValuesOf(init, m), NotOfAgent(a))
    ensures ValuesOf(KeepKeys(init + [k], m, a), m) == Select(ValuesOf(init + [k], m), NotOfAgent(a))
  {
    var kept := KeepKeys(init, m, a);
    assert (init + [k])[..|init|] == init;
    ValuesOfSnoc(init, k, m);
    SelectSnoc(ValuesOf(init, m), m[k], NotOfAgent(a));
    if m[k].agentId != a {
      assert KeepKeys(init + [k], m, a) == kept + [k];
      ValuesOfSnoc(kept, k, m);
    } else {
      assert KeepKeys(init + [k], m, a) == kept;
    }
  }

  /** The episodes of agents other than `a`, keyed as before. */
  function Kept(d: Dict<string, Episode>, a: string): map<string, Episode> {
    map k | k in d.m && d.m[k].agentId != a :: d.m[k]
  }

  lemma KeptKeyed(d: Dict<string, Episode>, a: string)
    requires Keyed(d)
    ensures Keyed(Dict(KeepKeys(d.keys, d.m, a), Kept(d, a)))
  {
  }

  lemma KeptValues(d: Dict<string, Episode>, a: string)
    requires Keyed(d)
    ensures ValuesOf(KeepKeys(d.keys, d.m, a), d.m) == Select(d.Values(), NotOfAgent(a))
  {
    KeepKeysValues(d.keys, d.m, a);
    DictValues(d);
  }

  /** `list(d.values())` is the values under its keys. */
  lemma DictValues(d: Dict<string, Episode>)
    requires d.Valid()
    ensures d.Values() == ValuesOf(d.keys, d.m)
  {
    var l, r := d.Values(), ValuesOf(d.keys, d.m);
    assert |l| == |r|;
    forall i | 0 <= i < |l|
      ensures l[i] == r[i]
    {
    }
  }

  /** `clear(agent_id)`: the episodes of other agents, in the same order. */
  function WithoutAgent(d: Dict<string, Episode>, a: string): (r: Dict<string, Episode>)
    requires Keyed(d)
    ensures Keyed(r)
    ensures r.m == map k | k in d.m && d.m[k].agentId != a :: d.m[k]
    ensures r.Values() == Select(d.Values(), NotOfAgent(a))
  {
    var r := Dict(KeepKeys(d.keys, d.m, a), Kept(d, a));
    KeptKeyed(d, a);
    KeptValues(d, a);
    DictValues(r);
    assert ValuesOf(r.keys, r.m) == ValuesOf(r.keys, d.m) by {
      forall i | 0 <= i < |r.keys|
        ensures r.m[r.keys[i]] == d.m[r.keys[i]]
      {
      }
    }
    r
  }

  /** `EpisodicMemory` without a graph database or persistence. */
  class EpisodicMemory {
    const maxEpisodes: int
    var episodes: Dict<string, Episode>

    ghost predicate Valid()
      reads this
    {
      Keyed(episodes)
    }

    constructor (maxEpisodes: int)
      ensures Valid() && this.maxEpisodes == maxEpisodes && episodes == EmptyDict()
    {
      this.maxEpisodes := maxEpisodes;
      episodes := EmptyDict();
    }

    /**
     * `store_episode`: a new episode under the given fresh id, stamped with the given clock
     * reading, metadata defaulting to `{}`, filed with oldest-first eviction.
     */
    method StoreEpisode(agentId: string, task: string, actions: seq<Json>, outcome: Json, duration: real,
                        success: bool, metadata: Json, id: string, now: int) returns (episode: Episode)
      requires Valid()
      modifies this
      ensures episode == Episode(id, agentId, task, actions, outcome, now, duration, success, Or(metadata, EmptyObject))
      ensures Valid() && episodes == Admit(old(episodes), episode, maxEpisodes)
    {
      episode := Episode(id, agentId, task, actions, outcome, now, duration, success, Or(metadata, EmptyObject));
      episodes := episodes.Put(episode.id, episode);
      if episodes.Size() > maxEpisodes {
        var oldest := Oldest(episodes.keys, episodes.m);
        episodes := episodes.Remove(oldest);
      }
    }

    /** `retrieve_episode`: the episode stored under the id, or `None`. */
    function RetrieveEpisode(id: string): (r: Option<Episode>)
      reads this
      requires Valid()
      ensures r.Some? <==> id in episodes.m
      ensures r.Some? ==> r.value == episodes.m[id] && r.value.id == id
    {
      episodes.Get(id)
    }

    function RetrieveByAgent(agentId: string, limit: int, successOnly: bool): (r: seq<Episode>)
      reads this
      requires Valid()
      ensures forall e :: e in r ==> e.id in episodes.m && episodes.m[e.id] == e && e.agentId == agentId
    {
      ByAgent(episodes.Values(), agentId, limit, successOnly)
    }

    function RetrieveSimilarTasks(task: string, limit: int): (r: seq<Episode>)
      reads this
      requires Valid()
      ensures forall e :: e in r ==> e.id in episodes.m && episodes.m[e.id] == e
    {
      Similar(episodes.Values(), task, limit)
    }

    function GetSuccessRate(agentId: Option<string>, taskPattern: Option<string>): (r: real)
      reads this
      requires Valid()
      ensures 0.0 <= r <= 1.0
    {
      SuccessRate(episodes.Values(), agentId, taskPattern)
    }

    /** `get_patterns`: groups by lower-cased task in one pass, then keeps and ranks the large groups. */
    method GetPatterns(agentId: Option<string>, minOccurrences: int) returns (patterns: seq<Pattern>)
      requires Valid()
      ensures patterns == PatternsOf(PatternScope(episodes.Values(), agentId), minOccurrences)
    {
      var eps := PatternScope(episodes.Values(), agentId);
      var groups := GroupByTask(eps);
      patterns := SummarizeGroups(groups, eps, minOccurrences);
      patterns := SortDesc(patterns, ByOccurrences);
    }

    /** `clear`: only the agent's episodes go when an agent is given, otherwise all of them. */
    method Clear(agentId: Option<string>)
      requires Valid()
      modifies this
      ensures Valid()
      ensures Given(agentId) ==> episodes == WithoutAgent(old(episodes), agentId.value)
      ensures !Given(agentId) ==> episodes == EmptyDict()
    {
      if Given(agentId) {
        episodes := WithoutAgent(episodes, agentId.value);
      } else {
        episodes := EmptyDict();
      }
    }

    /** `__len__`: the number of stored episodes. */
    function Length(): (n: nat)
      reads this
      requires Valid()
      ensures n == |episodes.m|
    {
      episodes.Size()
    }
  }
}
