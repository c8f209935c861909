/** The rate cache of `servidor.py`: the module-level `rates_cache` dict (`rates`, `last_update`,
    `cache_duration`) and `get_exchange_rates`, which serves the cached table while it is fresh,
    replaces it after a successful fetch and serves the fallback table, without storing it, when the
    fetch fails. Timestamps are whole seconds; the clock is the `now` parameter and the network is the
    `FetchOutcome` parameter. The lock around the function is not modelled: each call is one atomic
    step. */
module Cache {
  import opened Wrappers
  import opened RateSource

  /** `rates_cache['cache_duration']`, in seconds. */
  const CacheDuration: int := 3600

  const SecondsPerDay: int := 86400

  /** Python's `timedelta.seconds` for a difference of `delta` seconds: the seconds component left
      once whole days are taken out (rounding the day count down), not the total. */
  function TimedeltaSeconds(delta: int): (s: int)
    ensures 0 <= s < SecondsPerDay
    ensures (delta - s) % SecondsPerDay == 0
  {
    delta % SecondsPerDay
  }

  /** The contents of `rates_cache`: the table and the time it was fetched (`None` before the first
      successful fetch). */
  datatype CacheState = CacheState(rates: RateTable, lastUpdate: Option<int>)

  /** The cache at process start. */
  const Startup: CacheState := CacheState(map[], None)

  /** The cache-hit test: a timestamp is set, the table is non-empty and the seconds component of
      `now - last_update` is under the cache duration. */
  function IsFresh(c: CacheState, now: int): (hit: bool)
    ensures c.lastUpdate.None? || c.rates == map[] ==> !hit
    ensures c.lastUpdate.Some? && c.rates != map[] && 0 <= now - c.lastUpdate.value < CacheDuration ==> hit
    ensures c.lastUpdate.Some? && CacheDuration <= now - c.lastUpdate.value < SecondsPerDay ==> !hit
  {
    c.lastUpdate.Some? && |c.rates| > 0 && TimedeltaSeconds(now - c.lastUpdate.value) < CacheDuration
  }

  /** What the request to the primary provider yielded: a status-200 payload whose `rates` table is
      `primary`, together with what the BCB requests then yielded; or `Failed` for another status, a
      malformed payload or a network error. */
  datatype FetchOutcome = Fetched(primary: RateTable, bcb: BcbResponse) | Failed

  /** One call of `get_exchange_rates`: the table and timestamp it returns and the cache afterwards. */
  datatype Lookup = Lookup(table: RateTable, updatedAt: int, next: CacheState)

  /** The specification of `get_exchange_rates` on the cache contents `c`. */
  function GetRates(c: CacheState, now: int, outcome: FetchOutcome): (l: Lookup)
    ensures IsFresh(c, now) ==> l == Lookup(c.rates, c.lastUpdate.value, c)
    ensures !IsFresh(c, now) ==> l.updatedAt == now
    ensures !IsFresh(c, now) && outcome.Fetched? ==>
              l.table == outcome.primary && l.next == CacheState(outcome.primary, Some(now))
    ensures !IsFresh(c, now) && outcome.Failed? ==> l.table == FallbackRates() && l.next == c
    ensures l.next == c || l.next == CacheState(l.table, Some(now))
  {
    if IsFresh(c, now) then Lookup(c.rates, c.lastUpdate.value, c)
    else
      match outcome
      case Failed => Lookup(FallbackRates(), now, c)
      case Fetched(primary, resp) =>
        match ApplyBrlOverride(primary, BcbTable(resp))
        case None => Lookup(FallbackRates(), now, c)
        case Some(t) => Lookup(t, now, CacheState(t, Some(now)))
  }

  /** An entry younger than the cache duration is served from the cache. */
  lemma FreshWithinDuration(c: CacheState, now: int)
    requires c.lastUpdate.Some? && |c.rates| > 0
    requires 0 <= now - c.lastUpdate.value < CacheDuration
    ensures IsFresh(c, now)
    ensures GetRates(c, now, Failed) == Lookup(c.rates, c.lastUpdate.value, c)
  {
  }

  /** Because only the seconds component is compared, freshness repeats every day: an entry that is
      fresh at `now` is fresh again one day later, and the other way round. */
  lemma FreshnessRepeatsDaily(c: CacheState, now: int)
    ensures IsFresh(c, now) <==> IsFresh(c, now + SecondsPerDay)
  {
    if c.lastUpdate.Some? {
      var d := now - c.lastUpdate.value;
      var s := TimedeltaSeconds(d);
      assert (d + SecondsPerDay - s) % SecondsPerDay == 0 by {
        assert d + SecondsPerDay - s == (d - s) + SecondsPerDay;
      }
      assert TimedeltaSeconds(d + SecondsPerDay) == s;
    }
  }

  /** Concretely: a table fetched at second 0 is served again, unchanged, at one day and ten minutes,
      whatever the provider would now return. */
  lemma DayOldEntryIsServed(rates: RateTable, outcome: FetchOutcome)
    requires |rates| > 0
    ensures GetRates(CacheState(rates, Some(0)), SecondsPerDay + 600, outcome)
            == Lookup(rates, 0, CacheState(rates, Some(0)))
  {
    assert TimedeltaSeconds(SecondsPerDay + 600) == 600;
  }

  /** After a successful fetch of a non-empty table, a second call within the cache duration returns
      the same table and timestamp and leaves the cache as it is, whatever the provider would now
      return: no second fetch. */
  lemma SecondCallWithinDurationHitsCache(c: CacheState, t1: int, o1: FetchOutcome, t2: int, o2: FetchOutcome)
    requires !IsFresh(c, t1) && o1.Fetched? && |o1.primary| > 0
    requires 0 <= t2 - t1 < CacheDuration
    ensures var l1 := GetRates(c, t1, o1);
            GetRates(l1.next, t2, o2) == Lookup(l1.table, l1.updatedAt, l1.next)
  {
    var l1 := GetRates(c, t1, o1);
    assert l1.next == CacheState(o1.primary, Some(t1));
    FreshWithinDuration(l1.next, t2);
  }

  /** One call of `get_exchange_rates` as seen from outside: the time and what the network did. */
  datatype Call = Call(now: int, outcome: FetchOutcome)

  /** The lookups made by a sequence of calls, each starting from the cache the previous one left. */
  function Replay(c: CacheState, calls: seq<Call>): (ls: seq<Lookup>)
    ensures |ls| == |calls|
    decreases |calls|
  {
    if |calls| == 0 then []
    else
      var l := GetRates(c, calls[0].now, calls[0].outcome);
      [l] + Replay(l.next, calls[1..])
  }

  /** A source that always fails never changes the cache: every call leaves it as it was and serves
      either the cached table or the fallback table stamped with the call's time. The fallback table
      is never stored. */
  lemma {:induction false} FailingSourceNeverCaches(c: CacheState, calls: seq<Call>)
    requires forall i :: 0 <= i < |calls| ==> calls[i].outcome.Failed?
    ensures forall i :: 0 <= i < |calls| ==> Replay(c, calls)[i].next == c
    ensures forall i :: 0 <= i < |calls| && !IsFresh(c, calls[i].now) ==>
              Replay(c, calls)[i].table == FallbackRates() && Replay(c, calls)[i].updatedAt == calls[i].now
    decreases |calls|
  {
    if |calls| > 0 {
      var ls := Replay(c, calls);
      var l := GetRates(c, calls[0].now, calls[0].outcome);
      assert l.next == c;
      FailingSourceNeverCaches(c, calls[1..]);
      assert ls == [l] + Replay(c, calls[1..]);
      forall i | 1 <= i < |calls|
        ensures ls[i] == Replay(c, calls[1..])[i - 1] && calls[i] == calls[1..][i - 1]
      {
      }
    }
  }

  /** From process start, a source that always fails makes every call serve the fallback table
      stamped with that call's time. */
  lemma FailingSourceFromStartupServesFallback(calls: seq<Call>)
    requires forall i :: 0 <= i < |calls| ==> calls[i].outcome.Failed?
    ensures forall i :: 0 <= i < |calls| ==>
              Replay(Startup, calls)[i].table == FallbackRates() && Replay(Startup, calls)[i].updatedAt == calls[i].now
  {
    FailingSourceNeverCaches(Startup, calls);
  }

  /** The shared `rates_cache` dict. `lookups` counts the calls of `get_exchange_rates`, so that a
      caller's contract can say how often it consulted the cache. */
  class RateCache {
    var rates: RateTable
    var lastUpdate: Option<int>
    ghost var lookups: nat

    function State(): CacheState
      reads this
    {
      CacheState(rates, lastUpdate)
    }

    /** The cache as the module creates it: no rates, no timestamp. */
    constructor ()
      ensures State() == Startup && lookups == 0
    {
      rates := map[];
      lastUpdate := None;
      lookups := 0;
    }

    /** `get_exchange_rates`: returns the table and its timestamp and updates the cache as `GetRates`
        says. */
    method GetExchangeRates(now: int, outcome: FetchOutcome) returns (table: RateTable, updatedAt: int)
      modifies this
      ensures var l := GetRates(old(State()), now, outcome);
              table == l.table && updatedAt == l.updatedAt && State() == l.next
      ensures lookups == old(lookups) + 1
    {
      var before := State();
      lookups := lookups + 1;
      if IsFresh(before, now) {
        return rates, lastUpdate.value;
      }
      match outcome {
        case Failed =>
          table, updatedAt := FallbackRates(), now;
        case Fetched(primary, resp) =>
          var bcb := BcbRates(resp);
          BrlOverrideNeverFires(primary, resp);
          var patched := ApplyBrlOverride(primary, bcb);
          table := patched.value;
          rates, lastUpdate := table, Some(now);
          updatedAt := now;
      }
    }
  }
}
