/** The city-fact memo cache behind the easy-mode hint: a map from
    `city + "-" + seed` to the fact first drawn for that key.  The fact lists
    are parameters, and the random index is a parameter `pick`. */
module CityFacts {

  function CacheKey(city: string, seed: string): string {
    city + "-" + seed
  }

  class FactStore {
    var cache: map<string, string>
    const cityFacts: map<string, seq<string>>
    const fallbackFacts: seq<string>

    /** The facts a miss draws from: the city's own list when it is known and
        non-empty, the generic list otherwise. */
    function Candidates(city: string): seq<string> {
      if city in cityFacts && |cityFacts[city]| > 0 then cityFacts[city] else fallbackFacts
    }

    constructor (cityFacts: map<string, seq<string>>, fallbackFacts: seq<string>)
      requires |fallbackFacts| > 0
      ensures this.cityFacts == cityFacts && this.fallbackFacts == fallbackFacts
      ensures cache == map[]
    {
      this.cityFacts := cityFacts;
      this.fallbackFacts := fallbackFacts;
      cache := map[];
    }

    /** The fact for `city` under `seed`: "" for no city; the stored fact on a
        hit; on a miss, a fact drawn from the candidates (`pick` is the random
        draw), which is then stored under the key. */
    method GetCityFact(city: string, seed: string, pick: nat) returns (fact: string)
      requires |fallbackFacts| > 0
      modifies this
      ensures city == "" ==> fact == "" && cache == old(cache)
      ensures city != "" && CacheKey(city, seed) in old(cache) ==>
        fact == old(cache)[CacheKey(city, seed)] && cache == old(cache)
      ensures city != "" && CacheKey(city, seed) !in old(cache) ==>
        fact in Candidates(city) && cache == old(cache)[CacheKey(city, seed) := fact]
    {
      if city == "" {
        return "";
      }
      var key := CacheKey(city, seed);
      if key in cache {
        return cache[key];
      }
      if city in cityFacts && |cityFacts[city]| > 0 {
        var facts := cityFacts[city];
        fact := facts[pick % |facts|];
      } else {
        fact := fallbackFacts[pick % |fallbackFacts|];
      }
      cache := cache[key := fact];
    }

    /** Forget every stored fact. */
    method ClearCache()
      modifies this
      ensures cache == map[]
    {
      cache := map[];
    }
  }

  /** A second lookup with the same city and seed returns the first one's fact
      and leaves the cache as the first left it, whatever the random draws. */
  method RepeatedLookupIsStable(store: FactStore, city: string, seed: string, pick1: nat, pick2: nat)
    returns (first: string, second: string)
    requires |store.fallbackFacts| > 0
    modifies store
    ensures first == second
    ensures city != "" ==> CacheKey(city, seed) in store.cache && store.cache[CacheKey(city, seed)] == first
  {
    first := store.GetCityFact(city, seed, pick1);
    ghost var afterFirst := store.cache;
    second := store.GetCityFact(city, seed, pick2);
    assert store.cache == afterFirst;
  }

  /** After clearing, any lookup of a non-empty city is a miss: it returns a
      candidate fact, not a previously stored one, and the cache then holds
      that one key only. */
  method LookupAfterClearMisses(store: FactStore, city: string, seed: string, pick: nat)
    returns (fact: string)
    requires |store.fallbackFacts| > 0 && city != ""
    modifies store
    ensures fact in store.Candidates(city)
    ensures store.cache == map[CacheKey(city, seed) := fact]
  {
    store.ClearCache();
    fact := store.GetCityFact(city, seed, pick);
  }
}
