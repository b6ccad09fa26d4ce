/**
 * The fixed-window rate limit that one instance keeps in memory while Redis is away.
 * Times are seconds of a clock that never goes back.
 */
module RateLimit {
  import opened Options

  type Key = string

  const MEMORY_MAX_KEYS: nat := 10_000

  /** Hits counted in the current window, and when it ends. */
  datatype Entry = Entry(count: nat, end: real)

  // ---- one key ---------------------------------------------------------------------------------------------

  predicate Opens(entry: Option<Entry>, now: real) { entry.None? || now >= entry.value.end }

  function Hit(entry: Option<Entry>, now: real, window: nat): Entry {
    if Opens(entry, now) then Entry(1, now + window as real) else Entry(entry.value.count + 1, entry.value.end)
  }

  /** The hit that opens a window is let through without looking at the limit. */
  predicate Allows(entry: Option<Entry>, now: real, max: nat) { Opens(entry, now) || entry.value.count + 1 <= max }

  /** How many of the hits at `times` are let through, and the entry they leave. */
  function Allowed(entry: Option<Entry>, times: seq<real>, window: nat, max: nat): nat
    decreases |times|
  {
    if times == [] then 0 else
      (if Allows(entry, times[0], max) then 1 else 0) +
      Allowed(Some(Hit(entry, times[0], window)), times[1..], window, max)
  }

  function After(entry: Option<Entry>, times: seq<real>, window: nat): Option<Entry>
    decreases |times|
  {
    if times == [] then entry else After(Some(Hit(entry, times[0], window)), times[1..], window)
  }

  ghost predicate Ascending(times: seq<real>) { forall i, j :: 0 <= i < j < |times| ==> times[i] <= times[j] }

  function AtLeastOne(max: nat): nat { if max == 0 then 1 else max }

  lemma {:induction false} AllowedInTwo(entry: Option<Entry>, s: seq<real>, t: seq<real>, window: nat, max: nat)
    ensures Allowed(entry, s + t, window, max) ==
            Allowed(entry, s, window, max) + Allowed(After(entry, s, window), t, window, max)
    decreases |s|
  {
    if s == [] {
      assert s + t == t;
    } else {
      AllowedInTwo(Some(Hit(entry, s[0], window)), s[1..], t, window, max);
      assert (s + t)[1..] == s[1..] + t;
    }
  }

  function Least(a: nat, b: nat): nat { if a <= b then a else b }

  /** Inside a window that has counted some hits, just the remainder is let through, first come first served. */
  lemma {:induction false} RestOfWindow(e: Entry, times: seq<real>, window: nat, max: nat)
    requires forall i :: 0 <= i < |times| ==> times[i] < e.end
    ensures Allowed(Some(e), times, window, max) == Least(|times|, if e.count < max then max - e.count else 0)
    ensures times != [] ==> After(Some(e), times, window).Some? && After(Some(e), times, window).value.end == e.end
    decreases |times|
  {
    if times != [] {
      var e' := Hit(Some(e), times[0], window);
      RestOfWindow(e', times[1..], window, max);
    }
  }

  /** A window lets through its limit and no more, except that a limit of 0 acts as a limit of 1. */
  lemma WholeWindow(entry: Option<Entry>, times: seq<real>, window: nat, max: nat)
    requires times != [] && Opens(entry, times[0])
    requires forall i :: 0 <= i < |times| ==> times[i] < times[0] + window as real
    ensures Allowed(entry, times, window, max) == Least(|times|, AtLeastOne(max))
    ensures After(entry, times, window).Some? && After(entry, times, window).value.end == times[0] + window as real
  {
    RestOfWindow(Hit(entry, times[0], window), times[1..], window, max);
  }

  /** The first position whose time is not below `bound`. */
  function Split(times: seq<real>, bound: real): (k: nat)
    ensures k <= |times| && (forall i :: 0 <= i < k ==> times[i] < bound) && (k < |times| ==> times[k] >= bound)
  {
    if times == [] || times[0] >= bound then 0 else 1 + Split(times[1..], bound)
  }

  /** From the opening of a window to one window length later, both ends included. */
  lemma TwoWindows(entry: Option<Entry>, times: seq<real>, window: nat, max: nat)
    requires window > 0 && times != [] && Ascending(times) && Opens(entry, times[0])
    requires forall i :: 0 <= i < |times| ==> times[i] <= times[0] + window as real
    ensures Allowed(entry, times, window, max) <= 2 * AtLeastOne(max)
  {
    var k := Split(times, times[0] + window as real);
    assert times == times[..k] + times[k..];
    AllowedInTwo(entry, times[..k], times[k..], window, max);
    WholeWindow(entry, times[..k], window, max);
    if k < |times| { WholeWindow(After(entry, times[..k], window), times[k..], window, max); }
  }

  /**
   * In any interval of one window length, both ends included, at most twice the limit is let
   * through, whatever the entry was before it.
   */
  lemma AtMostTwiceTheLimit(entry: Option<Entry>, from: real, times: seq<real>, window: nat, max: nat)
    requires window > 0 && Ascending(times)
    requires forall i :: 0 <= i < |times| ==> from <= times[i] <= from + window as real
    ensures Allowed(entry, times, window, max) <= 2 * AtLeastOne(max)
  {
    if times != [] {
      if Opens(entry, times[0]) {
        TwoWindows(entry, times, window, max);
      } else {
        var e := entry.value;
        var k := Split(times, e.end);
        assert times == times[..k] + times[k..];
        AllowedInTwo(entry, times[..k], times[k..], window, max);
        RestOfWindow(e, times[..k], window, max);
        if k < |times| { WholeWindow(After(entry, times[..k], window), times[k..], window, max); }
      }
    }
  }

  // ---- the store -------------------------------------------------------------------------------------------

  type Store = map<Key, Entry>

  function At(store: Store, k: Key): Option<Entry> { if k in store then Some(store[k]) else None }

  /** What may be evicted at `now`: nothing while there is room; otherwise all expired windows, and
      live ones only as far as the bound demands, the earliest to end first. */
  ghost predicate Evicts(before: Store, now: real, evicted: set<Key>) {
    var left := before - evicted;
    && evicted <= before.Keys && |left| < MEMORY_MAX_KEYS
    && (|before| < MEMORY_MAX_KEYS ==> evicted == {})
    && (|before| >= MEMORY_MAX_KEYS ==> forall k :: k in left ==> left[k].end >= now)
    && (forall k :: k in evicted && before[k].end >= now ==>
          |left| == MEMORY_MAX_KEYS - 1 && forall j :: j in left ==> before[k].end <= left[j].end)
  }

  /** One call: the store before it, the keys it evicted, the store after it and its answer. */
  datatype Call = Call(key: Key, window: nat, max: nat, now: real, before: Store, evicted: set<Key>, after: Store,
                       allowed: bool)

  /** The entry and the answer, given what was evicted. */
  ghost predicate Counts(c: Call) {
    var entry := At(c.before - c.evicted, c.key);
    && c.after == (c.before - c.evicted)[c.key := Hit(entry, c.now, c.window)]
    && c.allowed == Allows(entry, c.now, c.max)
  }

  ghost predicate Checks(c: Call) { Evicts(c.before, c.now, c.evicted) && Counts(c) }

  class Memory {
    var store: Store

    method Earliest() returns (k: Key)
      requires store != map[]
      ensures k in store && forall j :: j in store ==> store[k].end <= store[j].end
    {
      var rest := store.Keys;
      k :| k in rest;
      rest := rest - {k};
      while rest != {}
        invariant k in store && rest <= store.Keys
        invariant forall j :: j in store && j !in rest ==> store[k].end <= store[j].end
        decreases |rest|
      {
        var j :| j in rest;
        if store[j].end < store[k].end { k := j; }
        rest := rest - {j};
      }
    }

    /** The second half: with only live windows left, the earliest to end go until there is room. */
    method EvictEarliest(ghost all: Store, ghost expired: set<Key>, now: real) returns (ghost evicted: set<Key>)
      requires expired <= all.Keys && store == all - expired
      requires forall k :: k in all ==> (k in expired <==> all[k].end < now)
      modifies this
      ensures expired <= evicted <= all.Keys && store == all - evicted && |store| < MEMORY_MAX_KEYS
      ensures forall k :: k in evicted && all[k].end >= now ==>
                |store| == MEMORY_MAX_KEYS - 1 && forall j :: j in store ==> all[k].end <= store[j].end
    {
      evicted := expired;
      while |store| >= MEMORY_MAX_KEYS && store != map[]
        invariant expired <= evicted <= all.Keys && store == all - evicted
        invariant forall k :: k in evicted && k !in expired ==>
                    |store| >= MEMORY_MAX_KEYS - 1 && forall j :: j in store ==> all[k].end <= store[j].end
        decreases |store|
      {
        var k := Earliest();
        assert |store.Keys - {k}| == |store| - 1;
        assert (store - {k}).Keys == store.Keys - {k};
        assert all - (evicted + {k}) == store - {k};
        store, evicted := store - {k}, evicted + {k};
      }
    }

    method Evict(now: real) returns (ghost evicted: set<Key>)
      modifies this
      ensures store == old(store) - evicted && Evicts(old(store), now, evicted)
    {
      evicted := {};
      assert old(store) - {} == old(store);
      if |store| < MEMORY_MAX_KEYS { return; }
      ghost var expired := set k | k in store && store[k].end < now;
      store := map k | k in store && !(store[k].end < now) :: store[k];
      assert store == old(store) - expired;
      evicted := EvictEarliest(old(store), expired, now);
    }

    method Check(key: Key, window: nat, max: nat, now: real)
      returns (allowed: bool, retry: nat, ghost evicted: set<Key>)
      modifies this
      ensures Checks(Call(key, window, max, now, old(store), evicted, store, allowed))
      ensures |store| <= MEMORY_MAX_KEYS
      ensures retry == if allowed then 0 else (store[key].end - now).Floor
    {
      evicted := Evict(now);
      if key !in store {
        store := store[key := Entry(1, now + window as real)];
        return true, 0, evicted;
      }
      var e := store[key];
      if now >= e.end {
        store := store[key := Entry(1, now + window as real)];
        return true, 0, evicted;
      }
      store := store[key := Entry(e.count + 1, e.end)];
      if e.count + 1 > max {
        // The source's maximum with 0 changes nothing here: the window has not ended.
        return false, (e.end - now).Floor, evicted;
      }
      return true, 0, evicted;
    }
  }

  // ---- runs over many keys -----------------------------------------------------------------------------------

  ghost predicate Run(start: Store, calls: seq<Call>, since: real)
    decreases |calls|
  {
    calls != [] ==>
      calls[0].before == start && calls[0].now >= since && Checks(calls[0]) &&
      Run(calls[0].after, calls[1..], calls[0].now)
  }

  /** When the calls hit `k`, and how many of those hits were let through. */
  function TimesOf(calls: seq<Call>, k: Key): seq<real> {
    if calls == [] then [] else (if calls[0].key == k then [calls[0].now] else []) + TimesOf(calls[1..], k)
  }

  function AllowedOf(calls: seq<Call>, k: Key): nat {
    if calls == [] then 0 else (if calls[0].key == k && calls[0].allowed then 1 else 0) + AllowedOf(calls[1..], k)
  }

  /** `k` always has this window and limit, and is never evicted while its window lasts. */
  ghost predicate Steady(calls: seq<Call>, k: Key, window: nat, max: nat) {
    calls != [] ==> SteadyCall(calls[0], k, window, max) && Steady(calls[1..], k, window, max)
  }

  ghost predicate SteadyCall(c: Call, k: Key, window: nat, max: nat) {
    && (c.key == k ==> c.window == window && c.max == max)
    && (k in c.evicted && k in c.before ==> c.before[k].end < c.now)
  }

  /** The store holds the entry, or has dropped it after its window ended. */
  ghost predicate Stands(store: Store, k: Key, entry: Option<Entry>, since: real) {
    At(store, k) == entry || (k !in store && entry.Some? && entry.value.end < since)
  }

  /** One call moves the entry of `k` as a hit on it alone would, and leaves it alone otherwise. */
  lemma CallMoves(c: Call, k: Key, entry: Option<Entry>, since: real, window: nat, max: nat)
    requires Counts(c) && since <= c.now && Stands(c.before, k, entry, since) && SteadyCall(c, k, window, max)
    ensures c.key == k ==>
              c.allowed == Allows(entry, c.now, max) && Stands(c.after, k, Some(Hit(entry, c.now, window)), c.now)
    ensures c.key != k ==> Stands(c.after, k, entry, c.now)
  {
    assert Stands(c.before - c.evicted, k, entry, c.now);
  }

  /** The same run without what evictions are allowed. */
  ghost predicate Chained(start: Store, calls: seq<Call>, since: real)
    decreases |calls|
  {
    calls != [] ==>
      calls[0].before == start && calls[0].now >= since && Counts(calls[0]) &&
      Chained(calls[0].after, calls[1..], calls[0].now)
  }

  lemma {:induction false} RunIsChained(start: Store, calls: seq<Call>, since: real)
    requires Run(start, calls, since)
    ensures Chained(start, calls, since)
    decreases |calls|
  {
    if calls != [] { RunIsChained(calls[0].after, calls[1..], calls[0].now); }
  }

  lemma {:induction false} FaresAlone(start: Store, calls: seq<Call>, since: real, k: Key, entry: Option<Entry>,
                                      window: nat, max: nat)
    requires Chained(start, calls, since) && Steady(calls, k, window, max) && Stands(start, k, entry, since)
    ensures AllowedOf(calls, k) == Allowed(entry, TimesOf(calls, k), window, max)
    decreases |calls|
  {
    if calls != [] {
      var c := calls[0];
      CallMoves(c, k, entry, since, window, max);
      if c.key == k {
        FaresAlone(c.after, calls[1..], c.now, k, Some(Hit(entry, c.now, window)), window, max);
        assert TimesOf(calls, k)[1..] == TimesOf(calls[1..], k);
      } else {
        FaresAlone(c.after, calls[1..], c.now, k, entry, window, max);
        assert TimesOf(calls, k) == TimesOf(calls[1..], k);
      }
    }
  }

  /** Among any calls on any keys, the hits on `k` fare as if `k` were alone. */
  lemma KeyFaresAlone(start: Store, calls: seq<Call>, since: real, k: Key, window: nat, max: nat)
    requires Run(start, calls, since) && Steady(calls, k, window, max)
    ensures AllowedOf(calls, k) == Allowed(At(start, k), TimesOf(calls, k), window, max)
  {
    RunIsChained(start, calls, since);
    FaresAlone(start, calls, since, k, At(start, k), window, max);
  }

  lemma {:induction false} TimesAscend(start: Store, calls: seq<Call>, since: real, k: Key)
    requires Chained(start, calls, since)
    ensures Ascending(TimesOf(calls, k)) && forall i :: 0 <= i < |TimesOf(calls, k)| ==> TimesOf(calls, k)[i] >= since
    decreases |calls|
  {
    if calls != [] {
      var rest := TimesOf(calls[1..], k);
      TimesAscend(calls[0].after, calls[1..], calls[0].now, k);
      assert TimesOf(calls, k) == (if calls[0].key == k then [calls[0].now] else []) + rest;
    }
  }

  /** Calls on any keys: a window of `k` lets through its limit and no more, where a limit of 0 acts as 1. */
  lemma StoreKeepsTheWindow(start: Store, calls: seq<Call>, since: real, k: Key, window: nat, max: nat)
    requires Run(start, calls, since) && Steady(calls, k, window, max)
    requires var times := TimesOf(calls, k);
             && times != [] && Opens(At(start, k), times[0])
             && forall i :: 0 <= i < |times| ==> times[i] < times[0] + window as real
    ensures AllowedOf(calls, k) == Least(|TimesOf(calls, k)|, AtLeastOne(max))
  {
    KeyFaresAlone(start, calls, since, k, window, max);
    WholeWindow(At(start, k), TimesOf(calls, k), window, max);
  }

  /** Calls on any keys: in any interval of one window length `k` gets at most twice its limit. */
  lemma StoreKeepsTwiceTheLimit(start: Store, calls: seq<Call>, since: real, k: Key, window: nat, max: nat, from: real)
    requires Run(start, calls, since) && Steady(calls, k, window, max) && window > 0
    requires forall i :: 0 <= i < |TimesOf(calls, k)| ==> from <= TimesOf(calls, k)[i] <= from + window as real
    ensures AllowedOf(calls, k) <= 2 * AtLeastOne(max)
  {
    KeyFaresAlone(start, calls, since, k, window, max);
    RunIsChained(start, calls, since);
    TimesAscend(start, calls, since, k);
    AtMostTwiceTheLimit(At(start, k), from, TimesOf(calls, k), window, max);
  }

  // ---- Redis -----------------------------------------------------------------------------------------------

  /** A Redis counter; without an expiry it stays for ever. */
  datatype Counter = Counter(count: nat, expires: Option<real>)

  function Live(c: Option<Counter>, now: real): Option<Counter> {
    if c.Some? && c.value.expires.Some? && now >= c.value.expires.value then None else c
  }

  /** INCR keeps the expiry of the counter it finds and sets none on a new one. */
  function Incr(c: Option<Counter>): Counter {
    if c.None? then Counter(1, None) else Counter(c.value.count + 1, c.value.expires)
  }

  /** The script: INCR, and EXPIRE when the result is 1. */
  function Script(c: Option<Counter>, now: real, window: nat): Counter {
    var n := Incr(Live(c, now));
    if n.count == 1 then n.(expires := Some(now + window as real)) else n
  }

  function MemoryAnswers(entry: Option<Entry>, times: seq<real>, window: nat, max: nat): seq<bool>
    decreases |times|
  {
    if times == [] then [] else
      [Allows(entry, times[0], max)] + MemoryAnswers(Some(Hit(entry, times[0], window)), times[1..], window, max)
  }

  function RedisAnswers(c: Option<Counter>, times: seq<real>, window: nat, max: nat): seq<bool>
    decreases |times|
  {
    if times == [] then [] else
      var n := Script(c, times[0], window);
      [n.count <= max] + RedisAnswers(Some(n), times[1..], window, max)
  }

  /** Both count the same hits in windows that end together. */
  ghost predicate InStep(entry: Option<Entry>, c: Option<Counter>) {
    (entry.None? && c.None?) ||
    (entry.Some? && c.Some? && entry.value.count == c.value.count > 0 && c.value.expires == Some(entry.value.end))
  }

  lemma {:induction false} StayInStep(entry: Option<Entry>, c: Option<Counter>, times: seq<real>, window: nat, max: nat)
    requires InStep(entry, c) && max > 0
    ensures MemoryAnswers(entry, times, window, max) == RedisAnswers(c, times, window, max)
    decreases |times|
  {
    if times != [] {
      StayInStep(Some(Hit(entry, times[0], window)), Some(Script(c, times[0], window)), times[1..], window, max);
    }
  }

  /** From a fresh start the fallback answers every sequence of hits as Redis would, if and only if
      the limit is positive or there is no hit. */
  lemma FallbackAgrees(times: seq<real>, window: nat, max: nat)
    ensures MemoryAnswers(None, times, window, max) == RedisAnswers(None, times, window, max) <==>
            max > 0 || times == []
  {
    if max > 0 {
      StayInStep(None, None, times, window, max);
    } else if times != [] {
      assert MemoryAnswers(None, times, window, max)[0] != RedisAnswers(None, times, window, max)[0];
    }
  }
}
