/**
 * The observability event service: structured events go through sampling and a per-minute rate
 * limit, get their attributes sanitised, and land in a bounded buffer that is listed and paged
 * with optional filters. The lock, the metrics and tracing calls and the clock are not modelled:
 * the current minute key and timestamp are parameters.
 */
module ObservabilityEvents {
  import opened Results
  import opened Text
  import opened Json
  import opened Bytes
  import opened Dicts

  function Max(a: int, b: int): int {
    if a < b then b else a
  }

  function Min(a: int, b: int): int {
    if a < b then a else b
  }

  /** `min(max(r, 0.0), 1.0)`. */
  function Clamp01(r: real): (c: real)
    ensures 0.0 <= c <= 1.0
    ensures 0.0 <= r <= 1.0 ==> c == r
  {
    if r < 0.0 then 0.0 else if r > 1.0 then 1.0 else r
  }

  // ---- 32-bit FNV-1a ----

  const FnvOffsetBasis: bv32 := 2166136261
  const FnvPrime: bv32 := 16777619

  /** One byte of FNV-1a: xor the byte in, then multiply modulo 2^32. */
  function FnvStep(h: bv32, b: Byte): bv32 {
    (h ^ (b as bv32)) * FnvPrime
  }

  /** FNV-1a of a byte string, one byte at a time from the offset basis. */
  function Fnv1a(bs: seq<Byte>): bv32 {
    if bs == [] then FnvOffsetBasis else FnvStep(Fnv1a(bs[..|bs| - 1]), bs[|bs| - 1])
  }

  /** The published FNV-1a test vectors for `""` and `"a"`. */
  lemma Fnv1aShortVectors()
    ensures Fnv1a(Utf8("")) == 0x811c9dc5
    ensures Fnv1a(Utf8("a")) == 0xe40c292c
  {
    var a: seq<Byte> := [97];
    assert Utf8("a") == a;
    assert (97 as Byte) as bv32 == 0x61;
    assert Fnv1a(a[..0]) == 0x811c9dc5 by { assert a[..0] == []; }
    assert Fnv1a(a) == FnvStep(0x811c9dc5, 97);
  }

  /** One more byte is one more step. */
  lemma Fnv1aSnoc(bs: seq<Byte>, b: Byte)
    ensures Fnv1a(bs + [b]) == FnvStep(Fnv1a(bs), b)
  {
    assert (bs + [b])[..|bs|] == bs;
  }

  /** The published FNV-1a test vector for `"foobar"`, one byte at a time. */
  lemma Fnv1aFoobar()
    ensures Fnv1a(Utf8("foobar")) == 0xbf9cf968
  {
    assert (102 as Byte) as bv32 == 0x66 && (111 as Byte) as bv32 == 0x6f && (98 as Byte) as bv32 == 0x62;
    assert (97 as Byte) as bv32 == 0x61 && (114 as Byte) as bv32 == 0x72;
    var f0: seq<Byte> := [];
    var f1 := f0 + [102];
    Fnv1aSnoc(f0, 102);
    assert Fnv1a(f1) == 0xe30c2799;
    var f2 := f1 + [111];
    Fnv1aSnoc(f1, 111);
    assert Fnv1a(f2) == 0x6222e842;
    var f3 := f2 + [111];
    Fnv1aSnoc(f2, 111);
    assert Fnv1a(f3) == 0xa9f37ed7;
    var f4 := f3 + [98];
    Fnv1aSnoc(f3, 98);
    assert Fnv1a(f4) == 0x3f5076ef;
    var f5 := f4 + [97];
    Fnv1aSnoc(f4, 97);
    assert Fnv1a(f5) == 0x39aaa18a;
    Fnv1aSnoc(f5, 114);
    assert Utf8("foobar") == f5 + [114];
  }

  /** `_stable_hash`: FNV-1a over the UTF-8 bytes of `text`, as an unsigned 32-bit number. */
  method StableHash(text: string) returns (h: int)
    ensures 0 <= h < 0x1_0000_0000
    ensures h == Fnv1a(Utf8(text)) as int
  {
    var bytes := Utf8(text);
    var acc: bv32 := FnvOffsetBasis;
    var i := 0;
    while i < |bytes|
      invariant 0 <= i <= |bytes|
      invariant acc == Fnv1a(bytes[..i])
    {
      assert bytes[..i + 1][..i] == bytes[..i];
      acc := FnvStep(acc, bytes[i]);
      i := i + 1;
    }
    assert bytes[..i] == bytes;
    h := acc as int;
  }

  // ---- attributes ----

  /** An attribute value: numbers, booleans and `None` pass through; anything else becomes a cut-down string. */
  function CleanValue(v: Json, n: nat): (c: Json)
    ensures (v.JNull? || v.JBool? || v.JInt?) ==> c == v
    ensures !(v.JNull? || v.JBool? || v.JInt?) ==> c.JStr? && |c.s| <= n && |c.s| <= |PyStr(v)| && c.s == PyStr(v)[..|c.s|]
  {
    if v.JNull? || v.JBool? || v.JInt? then v else JStr(Truncate(PyStr(v), n))
  }

  /** The clean dict built from the attributes under `keys`, in order; a later key whose cut-down form collides overwrites. */
  function Cleaned(keys: seq<string>, attrs: map<string, Json>, keyMax: nat, valueMax: nat): (d: Dict<string, Json>)
    requires forall i :: 0 <= i < |keys| ==> keys[i] in attrs
    ensures d.Valid()
  {
    if keys == [] then EmptyDict()
    else
      var k := keys[|keys| - 1];
      Cleaned(keys[..|keys| - 1], attrs, keyMax, valueMax).Put(Truncate(k, keyMax), CleanValue(attrs[k], valueMax))
  }

  /** One more source key puts its cut-down form with its cleaned value. */
  lemma CleanedStep(keys: seq<string>, n: nat, attrs: map<string, Json>, keyMax: nat, valueMax: nat)
    requires n < |keys| && forall i :: 0 <= i < |keys| ==> keys[i] in attrs
    ensures forall i :: 0 <= i < n ==> keys[..n][i] in attrs
    ensures Cleaned(keys[..n + 1], attrs, keyMax, valueMax)
      == Cleaned(keys[..n], attrs, keyMax, valueMax).Put(Truncate(keys[n], keyMax), CleanValue(attrs[keys[n]], valueMax))
  {
    assert keys[..n + 1][..n] == keys[..n];
  }

  /** The clean dict has at most one entry per source key, and no key longer than `keyMax`. */
  lemma {:induction false} CleanedSize(keys: seq<string>, attrs: map<string, Json>, keyMax: nat, valueMax: nat)
    requires forall i :: 0 <= i < |keys| ==> keys[i] in attrs
    ensures var d := Cleaned(keys, attrs, keyMax, valueMax);
      |d.keys| <= |keys| && forall k :: k in d.m ==> |k| <= keyMax
  {
    if keys != [] {
      CleanedSize(keys[..|keys| - 1], attrs, keyMax, valueMax);
    }
  }

  /** Each key of the clean dict is a cut-down source key. */
  lemma {:induction false} CleanedKeysSound(keys: seq<string>, attrs: map<string, Json>, keyMax: nat, valueMax: nat)
    requires forall i :: 0 <= i < |keys| ==> keys[i] in attrs
    ensures var d := Cleaned(keys, attrs, keyMax, valueMax);
      forall k :: k in d.m ==> exists i :: 0 <= i < |keys| && Truncate(keys[i], keyMax) == k
  {
    if keys != [] {
      var init := keys[..|keys| - 1];
      CleanedKeysSound(init, attrs, keyMax, valueMax);
      var d := Cleaned(keys, attrs, keyMax, valueMax);
      forall k | k in d.m
        ensures exists i :: 0 <= i < |keys| && Truncate(keys[i], keyMax) == k
      {
        if k != Truncate(keys[|keys| - 1], keyMax) {
          assert k in Cleaned(init, attrs, keyMax, valueMax).m;
          var i :| 0 <= i < |init| && Truncate(init[i], keyMax) == k;
          assert init[i] == keys[i];
        }
      }
    }
  }

  /** Every cut-down source key is a key of the clean dict. */
  lemma {:induction false} CleanedKeysComplete(keys: seq<string>, attrs: map<string, Json>, keyMax: nat, valueMax: nat)
    requires forall i :: 0 <= i < |keys| ==> keys[i] in attrs
    ensures forall i :: 0 <= i < |keys| ==> Truncate(keys[i], keyMax) in Cleaned(keys, attrs, keyMax, valueMax).m
  {
    if keys != [] {
      var init := keys[..|keys| - 1];
      CleanedKeysComplete(init, attrs, keyMax, valueMax);
      forall i | 0 <= i < |init|
        ensures Truncate(keys[i], keyMax) in Cleaned(keys, attrs, keyMax, valueMax).m
      {
        assert init[i] == keys[i];
      }
    }
  }

  /** The value under a key is the cleaned value of the last source key that cuts down to it. */
  lemma {:induction false} CleanedLastWins(keys: seq<string>, attrs: map<string, Json>, keyMax: nat, valueMax: nat, i: nat)
    requires forall i :: 0 <= i < |keys| ==> keys[i] in attrs
    requires i < |keys| && forall j :: i < j < |keys| ==> Truncate(keys[j], keyMax) != Truncate(keys[i], keyMax)
    ensures Truncate(keys[i], keyMax) in Cleaned(keys, attrs, keyMax, valueMax).m
    ensures Cleaned(keys, attrs, keyMax, valueMax).m[Truncate(keys[i], keyMax)] == CleanValue(attrs[keys[i]], valueMax)
  {
    if i < |keys| - 1 {
      var init := keys[..|keys| - 1];
      assert init[i] == keys[i];
      forall j | i < j < |init|
        ensures Truncate(init[j], keyMax) != Truncate(init[i], keyMax)
      {
        assert init[j] == keys[j];
      }
      CleanedLastWins(init, attrs, keyMax, valueMax, i);
    }
  }

  /** `_sanitize_attributes`, for the clamped limits. */
  function Sanitized(attributes: Option<Dict<string, Json>>, maxAttributes: int, keyMax: nat, valueMax: nat)
    : (d: Dict<string, Json>)
    requires attributes.Some? ==> attributes.value.Valid()
    ensures d.Valid()
  {
    if attributes.None? || attributes.value.keys == [] || maxAttributes <= 0 then EmptyDict()
    else
      var ks := attributes.value.keys;
      Cleaned(ks[..Min(maxAttributes, |ks|)], attributes.value.m, keyMax, valueMax)
  }

  /**
   * Sanitising keeps at most `maxAttributes` entries, each key drawn from the first
   * `maxAttributes` attributes and cut to `keyMax`, and every string value cut to `valueMax`.
   */
  lemma SanitizedBounds(attributes: Option<Dict<string, Json>>, maxAttributes: int, keyMax: nat, valueMax: nat)
    requires attributes.Some? ==> attributes.value.Valid()
    ensures var d := Sanitized(attributes, maxAttributes, keyMax, valueMax);
      && |d.keys| <= Max(maxAttributes, 0)
      && (attributes.None? || attributes.value.keys == [] ==> d.keys == [])
      && (forall k :: k in d.m ==> |k| <= keyMax)
      && (forall k :: k in d.m ==> (exists i :: (0 <= i < Min(maxAttributes, |attributes.value.keys|)
           && Truncate(attributes.value.keys[i], keyMax) == k)))
      && (forall k :: k in d.m && d.m[k].JStr? ==> |d.m[k].s| <= valueMax)
  {
    if !(attributes.None? || attributes.value.keys == [] || maxAttributes <= 0) {
      var ks := attributes.value.keys;
      var n := Min(maxAttributes, |ks|);
      assert forall i :: 0 <= i < |ks[..n]| ==> ks[..n][i] == ks[i];
      CleanedSize(ks[..n], attributes.value.m, keyMax, valueMax);
      CleanedKeysSound(ks[..n], attributes.value.m, keyMax, valueMax);
      CleanedValues(ks[..n], attributes.value.m, keyMax, valueMax);
    }
  }

  /** Every string value in a clean dict is at most `valueMax` long. */
  lemma {:induction false} CleanedValues(keys: seq<string>, attrs: map<string, Json>, keyMax: nat, valueMax: nat)
    requires forall i :: 0 <= i < |keys| ==> keys[i] in attrs
    ensures var d := Cleaned(keys, attrs, keyMax, valueMax);
      forall k :: k in d.m && d.m[k].JStr? ==> |d.m[k].s| <= valueMax
  {
    if keys != [] {
      var init := keys[..|keys| - 1];
      CleanedValues(init, attrs, keyMax, valueMax);
      var last := keys[|keys| - 1];
      var v := CleanValue(attrs[last], valueMax);
      assert Cleaned(keys, attrs, keyMax, valueMax).m == Cleaned(init, attrs, keyMax, valueMax).m[Truncate(last, keyMax) := v];
    }
  }

  // ---- sampling ----

  /** The sampling rate of an event: a `"category.event"` override, else a `category` override, else the default. */
  function SampleRate(overrides: map<string, real>, default: real, category: string, event: string): (rate: real)
    ensures category + "." + event in overrides ==> rate == overrides[category + "." + event]
    ensures category + "." + event !in overrides && category in overrides ==> rate == overrides[category]
    ensures category + "." + event !in overrides && category !in overrides ==> rate == default
  {
    var exact := category + "." + event;
    if exact in overrides then overrides[exact] else if category in overrides then overrides[category] else default
  }

  /** The seed hashed for a fractional rate, `"{category}|{event}|{run_id or ''}|{trace_id or ''}|{counter}"`. */
  function SampleSeed(category: string, event: string, runId: Option<string>, traceId: Option<string>, counter: int): string {
    category + "|" + event + "|" + runId.GetOr("") + "|" + traceId.GetOr("") + "|" + IntToString(counter)
  }

  /** Whether an event with sampling rate `rate` and seed `seed` is kept. */
  predicate SampledIn(rate: real, seed: string) {
    if rate >= 1.0 then true
    else if rate <= 0.0 then false
    else (Fnv1a(Utf8(seed)) as int) % 10000 < (rate * 10000.0).Floor
  }

  /** Raising the rate never drops an event the lower rate kept. */
  lemma SampledInMonotone(low: real, high: real, seed: string)
    requires low <= high
    ensures SampledIn(low, seed) ==> SampledIn(high, seed)
  {
    if 0.0 < low && high < 1.0 {
      assert low * 10000.0 <= high * 10000.0;
    }
  }

  /**
   * Two emits with different counters hash different seeds, so the fractional sampling of
   * repeated events does not always take the same decision.
   */
  lemma SampleSeedsDiffer(category: string, event: string, runId: Option<string>, traceId: Option<string>,
                          first: nat, second: nat)
    requires first != second
    ensures SampleSeed(category, event, runId, traceId, first) != SampleSeed(category, event, runId, traceId, second)
  {
    var head := category + "|" + event + "|" + runId.GetOr("") + "|" + traceId.GetOr("") + "|";
    assert SampleSeed(category, event, runId, traceId, first) == head + NatToString(first);
    assert SampleSeed(category, event, runId, traceId, second) == head + NatToString(second);
    if head + NatToString(first) == head + NatToString(second) {
      assert (head + NatToString(first))[|head|..] == NatToString(first);
      assert (head + NatToString(second))[|head|..] == NatToString(second);
      NatToStringInjective(first, second);
    }
  }

  /** A rate of one keeps every event and a rate of zero drops every event, whatever the seed. */
  lemma SampledInEdges(seed: string)
    ensures SampledIn(1.0, seed) && !SampledIn(0.0, seed)
  {
  }

  // ---- rate limiting ----

  /** The per-minute counter key, `"{source}:{category}:{event}"`. */
  function RateKey(source: string, category: string, event: string): string {
    source + ":" + category + ":" + event
  }

  /**
   * One `_rate_limited` decision: the counts start afresh when the minute changes; an event is
   * limited when its key has already reached the limit, and otherwise counted.
   */
  function RateStep(windowKey: string, counts: map<string, int>, limit: int, nowKey: string, key: string)
    : (r: (bool, map<string, int>))
    ensures var window := if nowKey != windowKey then map[] else counts;
      var current := if key in window then window[key] else 0;
      && (r.0 <==> current >= limit)
      && (r.0 ==> r.1 == window)
      && (!r.0 ==> r.1 == window[key := current + 1])
  {
    var window := if nowKey != windowKey then map[] else counts;
    var current := if key in window then window[key] else 0;
    if current >= limit then (true, window) else (false, window[key := current + 1])
  }

  /** Counts stay between 1 and the limit, so no key is ever let through more than `limit` times a minute. */
  lemma RateStepBounded(windowKey: string, counts: map<string, int>, limit: int, nowKey: string, key: string)
    requires limit >= 1 && forall k :: k in counts ==> 1 <= counts[k] <= limit
    ensures var r := RateStep(windowKey, counts, limit, nowKey, key);
      forall k :: k in r.1 ==> 1 <= r.1[k] <= limit
  {
  }

  // ---- events, filters, paging ----

  datatype Event = Event(category: string, event: string, status: string, runId: Option<string>,
                         traceId: Option<string>, correlationId: Option<string>, source: string,
                         latencyMs: Option<real>, attributes: Dict<string, Json>, timestamp: string)

  /** The equality filters of a listing; an absent or empty filter matches everything. */
  datatype Filters = Filters(category: Option<string>, event: Option<string>, runId: Option<string>,
                             status: Option<string>, source: Option<string>)

  predicate Given(f: Option<string>) {
    f.Some? && f.value != ""
  }

  predicate Matches(f: Filters, e: Event) {
    && (Given(f.category) ==> e.category == f.category.value)
    && (Given(f.event) ==> e.event == f.event.value)
    && (Given(f.runId) ==> e.runId == f.runId)
    && (Given(f.status) ==> e.status == f.status.value)
    && (Given(f.source) ==> e.source == f.source.value)
  }

  /** The events that pass the filters, in arrival order. */
  function Filter(events: seq<Event>, f: Filters): (r: seq<Event>)
    ensures |r| <= |events|
    ensures forall e :: e in r <==> e in events && Matches(f, e)
  {
    if events == [] then []
    else (if Matches(f, events[0]) then [events[0]] else []) + Filter(events[1..], f)
  }

  function NoFilters(): Filters {
    Filters(None, None, None, None, None)
  }

  /** Without filters every event is listed. */
  lemma {:induction false} FilterNone(events: seq<Event>)
    ensures Filter(events, NoFilters()) == events
  {
    if events != [] {
      FilterNone(events[1..]);
    }
  }

  /** `s[-n:]` for `n >= 1`: the last `n` items, or all of them when there are fewer. */
  function Last<T>(s: seq<T>, n: nat): (r: seq<T>)
    ensures |r| == Min(n, |s|) && r == s[|s| - |r|..]
  {
    if |s| <= n then s else s[|s| - n..]
  }

  /** Keeping the last `n` after each append is keeping the last `n` of everything appended. */
  lemma LastAppend<T>(s: seq<T>, x: T, n: nat)
    requires n >= 1
    ensures Last(Last(s, n) + [x], n) == Last(s + [x], n)
  {
  }

  /** A page of newest-first results, and the cursor of the next page if there is one. */
  datatype Page = Page(items: seq<Event>, totalFiltered: nat, nextCursor: Option<string>)

  /** The offset a cursor stands for: its integer value, with a missing, empty, unparsable or negative cursor meaning 0. */
  function CursorOffset(cursor: Option<string>): (offset: nat)
    ensures cursor.None? || cursor.value == "" ==> offset == 0
    ensures cursor.Some? && ParseInt(cursor.value).None? ==> offset == 0
    ensures cursor.Some? && cursor.value != "" && ParseInt(cursor.value).Some? ==> offset == Max(ParseInt(cursor.value).value, 0)
  {
    if cursor.None? || cursor.value == "" then 0
    else match ParseInt(cursor.value)
      case None => 0
      case Some(v) => if v < 0 then 0 else v
  }

  /** The filtered events newest first, from the cursor's offset. */
  function PageOf(filtered: seq<Event>, limit: int, cursor: Option<string>): (p: Page)
    ensures p.totalFiltered == |filtered| && |p.items| <= Max(limit, 1)
    ensures forall i :: 0 <= i < |p.items| ==> p.items[i] in filtered
    ensures cursor.None? && filtered != [] ==> p.items != [] && p.items[0] == filtered[|filtered| - 1]
  {
    PageAt(filtered, limit, CursorOffset(cursor))
  }

  /** The filtered events newest first, from `offset`, at most `max(limit, 1)` of them. */
  function PageAt(filtered: seq<Event>, limit: int, offset: nat): (p: Page)
    ensures var lim := Max(limit, 1);
      && p.totalFiltered == |filtered|
      && |p.items| == Min(lim, Max(|filtered| - offset, 0))
      && (forall i :: 0 <= i < |p.items| ==> p.items[i] == filtered[|filtered| - 1 - (offset + i)])
      && (p.nextCursor.Some? <==> offset + lim < |filtered|)
      && (p.nextCursor.Some? ==> p.nextCursor.value == NatToString(offset + lim))
  {
    var newest := Reversed(filtered);
    var lim := Max(limit, 1);
    var start := Min(offset, |newest|);
    var stop := Min(offset + lim, |newest|);
    NewestWindow(filtered, start, stop);
    Page(newest[start..stop], |newest|, if offset + lim < |newest| then Some(NatToString(offset + lim)) else None)
  }

  /** A slice of the newest-first order counts back from the end of `filtered`. */
  lemma NewestWindow<T>(filtered: seq<T>, start: nat, stop: nat)
    requires start <= stop <= |filtered|
    ensures var w := Reversed(filtered)[start..stop];
      |w| == stop - start && forall i :: 0 <= i < |w| ==> w[i] == filtered[|filtered| - 1 - (start + i)]
  {
  }

  function Reversed<T>(s: seq<T>): (r: seq<T>)
    ensures |r| == |s| && forall i :: 0 <= i < |s| ==> r[i] == s[|s| - 1 - i]
  {
    if s == [] then [] else Reversed(s[1..]) + [s[0]]
  }

  /**
   * Following `next_cursor` continues exactly where the page ended, so paging visits every event
   * once; `next_cursor` has at most `MaxStrDigits` digits whenever `str()` can print it.
   */
  lemma PageContinues(filtered: seq<Event>, limit: int, cursor: Option<string>)
    ensures var p := PageOf(filtered, limit, cursor);
      p.nextCursor.Some? && |p.nextCursor.value| <= MaxStrDigits ==> CursorOffset(p.nextCursor) == CursorOffset(cursor) + |p.items|
  {
    var p := PageOf(filtered, limit, cursor);
    if p.nextCursor.Some? && |p.nextCursor.value| <= MaxStrDigits {
      var next := CursorOffset(cursor) + Max(limit, 1);
      assert p.nextCursor == Some(NatToString(next));
      CursorOfNat(next);
      assert |p.items| == Max(limit, 1);
    }
  }

  /** The cursor `str(n)` stands for offset `n`; one with more than `MaxStrDigits` digits stands for 0. */
  lemma CursorOfNat(n: nat)
    ensures CursorOffset(Some(NatToString(n))) == if |NatToString(n)| <= MaxStrDigits then n else 0
  {
    ParseNatToStringLimit(n);
  }

  const DefaultMaxEntries: int := 5000

  class EventService {
    const maxEntries: int
    const defaultSampleRate: real
    const rateLimit: int
    const maxAttributes: int
    const keyMax: nat
    const valueMax: nat
    const sampleOverrides: map<string, real>
    /** The buffer, oldest first. */
    var events: seq<Event>
    var emitCounter: int
    var rateWindowKey: string
    var rateCounts: map<string, int>
    /** Every event ever appended, oldest first. */
    ghost var appended: seq<Event>

    /** The buffer holds the newest `maxEntries` appended events, and no rate count exceeds the limit. */
    ghost predicate Valid()
      reads this
    {
      && maxEntries >= 1 && rateLimit >= 1
      && events == Last(appended, maxEntries)
      && (forall k :: k in rateCounts ==> 1 <= rateCounts[k] <= rateLimit)
      && (forall k :: k in sampleOverrides ==> 0.0 <= sampleOverrides[k] <= 1.0)
      && 0.0 <= defaultSampleRate <= 1.0
    }

    /** Every setting is clamped into range; the buffer, counters and rate window start empty. */
    constructor (maxEntries: int, defaultSampleRate: real, rateLimitPerMinute: int, maxAttributes: int,
                 keyMaxLength: int, valueMaxLength: int, sampleOverrides: Option<map<string, real>>)
      ensures Valid()
      ensures this.maxEntries == Max(maxEntries, 1) && this.defaultSampleRate == Clamp01(defaultSampleRate)
      ensures rateLimit == Max(rateLimitPerMinute, 1) && this.maxAttributes == Max(maxAttributes, 0)
      ensures keyMax == Max(keyMaxLength, 8) && valueMax == Max(valueMaxLength, 32)
      ensures this.sampleOverrides == (var o := sampleOverrides.GetOr(map[]); map k | k in o :: Clamp01(o[k]))
      ensures events == [] && emitCounter == 0 && rateWindowKey == "" && rateCounts == map[] && appended == []
    {
      this.maxEntries := Max(maxEntries, 1);
      this.defaultSampleRate := Clamp01(defaultSampleRate);
      rateLimit := Max(rateLimitPerMinute, 1);
      this.maxAttributes := Max(maxAttributes, 0);
      keyMax := Max(keyMaxLength, 8);
      valueMax := Max(valueMaxLength, 32);
      var o := sampleOverrides.GetOr(map[]);
      this.sampleOverrides := map k | k in o :: Clamp01(o[k]);
      events := [];
      emitCounter := 0;
      rateWindowKey := "";
      rateCounts := map[];
      appended := [];
    }

    /** `_is_sampled_in`, with the current emit counter in the seed. */
    method IsSampledIn(category: string, event: string, runId: Option<string>, traceId: Option<string>)
      returns (b: bool)
      ensures b == SampledIn(SampleRate(sampleOverrides, defaultSampleRate, category, event),
                             SampleSeed(category, event, runId, traceId, emitCounter))
    {
      var rate := SampleRate(sampleOverrides, defaultSampleRate, category, event);
      if rate >= 1.0 {
        return true;
      }
      if rate <= 0.0 {
        return false;
      }
      var h := StableHash(SampleSeed(category, event, runId, traceId, emitCounter));
      b := h % 10000 < (rate * 10000.0).Floor;
    }

    /** `_rate_limited` at the minute `nowKey`. */
    method RateLimited(nowKey: string, category: string, event: string, source: string) returns (limited: bool)
      requires Valid()
      modifies this
      ensures Valid()
      ensures (limited, rateCounts) == RateStep(old(rateWindowKey), old(rateCounts), rateLimit, nowKey, RateKey(source, category, event))
      ensures rateWindowKey == nowKey
      ensures events == old(events) && appended == old(appended) && emitCounter == old(emitCounter)
    {
      RateStepBounded(rateWindowKey, rateCounts, rateLimit, nowKey, RateKey(source, category, event));
      if nowKey != rateWindowKey {
        rateWindowKey := nowKey;
        rateCounts := map[];
      }
      var key := RateKey(source, category, event);
      var current := if key in rateCounts then rateCounts[key] else 0;
      if current >= rateLimit {
        return true;
      }
      rateCounts := rateCounts[key := current + 1];
      limited := false;
    }

    /** `_sanitize_attributes`: the first `maxAttributes` attributes, keys and string values cut down. */
    method SanitizeAttributes(attributes: Option<Dict<string, Json>>) returns (clean: Dict<string, Json>)
      requires attributes.Some? ==> attributes.value.Valid()
      ensures clean == Sanitized(attributes, maxAttributes, keyMax, valueMax)
    {
      clean := EmptyDict();
      if attributes.None? || attributes.value.keys == [] || maxAttributes <= 0 {
        return;
      }
      var ks := attributes.value.keys;
      var idx := 0;
      while idx < |ks|
        invariant 0 <= idx <= Min(maxAttributes, |ks|)
        invariant clean == Cleaned(ks[..idx], attributes.value.m, keyMax, valueMax)
      {
        if idx >= maxAttributes {
          break;
        }
        var key := ks[idx];
        CleanedStep(ks, idx, attributes.value.m, keyMax, valueMax);
        clean := clean.Put(Truncate(key, keyMax), CleanValue(attributes.value.m[key], valueMax));
        idx := idx + 1;
      }
      assert ks[..idx] == ks[..Min(maxAttributes, |ks|)];
    }

    /**
     * `emit`: the counter always goes up; a sampled-out or rate-limited event is dropped and
     * `None` returned; otherwise the event with sanitised attributes is appended to the buffer,
     * dropping the oldest when it is full, and returned.
     */
    method Emit(category: string, event: string, status: string, runId: Option<string>, traceId: Option<string>,
                correlationId: Option<string>, source: string, latencyMs: Option<real>,
                attributes: Option<Dict<string, Json>>, nowKey: string, timestamp: string)
      returns (r: Option<Event>)
      requires Valid() && (attributes.Some? ==> attributes.value.Valid())
      modifies this
      ensures Valid() && emitCounter == old(emitCounter) + 1
      ensures var sampled := SampledIn(SampleRate(sampleOverrides, defaultSampleRate, category, event),
                                       SampleSeed(category, event, runId, traceId, emitCounter));
        var rate := RateStep(old(rateWindowKey), old(rateCounts), rateLimit, nowKey, RateKey(source, category, event));
        && (!sampled ==> r == None && events == old(events) && rateCounts == old(rateCounts) && rateWindowKey == old(rateWindowKey))
        && (sampled ==> rateCounts == rate.1 && rateWindowKey == nowKey)
        && (sampled && rate.0 ==> r == None && events == old(events))
        && (sampled && !rate.0 ==>
              && r == Some(Event(category, event, status, runId, traceId, correlationId, source, latencyMs,
                                 Sanitized(attributes, maxAttributes, keyMax, valueMax), timestamp))
              && appended == old(appended) + [r.value]
              && events == Last(old(events) + [r.value], maxEntries))
      ensures r.None? ==> appended == old(appended)
    {
      emitCounter := emitCounter + 1;
      var sampled := IsSampledIn(category, event, runId, traceId);
      if !sampled {
        return None;
      }
      var limited := RateLimited(nowKey, category, event, source);
      if limited {
        return None;
      }
      var safe := SanitizeAttributes(attributes);
      var e := Event(category, event, status, runId, traceId, correlationId, source, latencyMs, safe, timestamp);
      LastAppend(appended, e, maxEntries);
      events := Last(events + [e], maxEntries);
      appended := appended + [e];
      r := Some(e);
    }

    /** `list_events`: the newest `max(limit, 1)` events passing the filters, oldest first. */
    function ListEvents(limit: int, f: Filters): (r: seq<Event>)
      reads this
      ensures var filtered := Filter(events, f);
        |r| == Min(Max(limit, 1), |filtered|) && r == filtered[|filtered| - |r|..]
    {
      Last(Filter(events, f), Max(limit, 1))
    }

    /** `page_events`: the filtered events newest first, one page from the cursor. */
    function PageEvents(limit: int, cursor: Option<string>, f: Filters): (p: Page)
      reads this
      ensures p == PageOf(Filter(events, f), limit, cursor)
    {
      PageOf(Filter(events, f), limit, cursor)
    }

    /** `clear`: the buffer is emptied; counters and the rate window stay. */
    method Clear()
      requires Valid()
      modifies this
      ensures Valid() && events == [] && appended == []
      ensures emitCounter == old(emitCounter) && rateCounts == old(rateCounts) && rateWindowKey == old(rateWindowKey)
    {
      events := [];
      appended := [];
    }
  }

  /** The buffer never holds more than `max(max_entries, 1)` events. */
  lemma BufferBounded(s: EventService)
    requires s.Valid()
    ensures |s.events| <= s.maxEntries
  {
  }
}
