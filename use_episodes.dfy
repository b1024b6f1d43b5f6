/**
 * The show and season detail queries (src/hooks/useEpisodes.ts).
 */
module UseEpisodes {
  import opened JsNumbers
  import opened Tmdb
  import opened Queries
  import opened EpisodeServices

  const DetailStaleTimeMs := 1800000

  /** `useShowDetails(id)`: key `['show', id]`, enabled by `!!id`. */
  function ShowDetailsQuery(id: JsNumber): QueryOptions {
    QueryOptions([Text("show"), Number(id)], ShowDetails(id), Truthy(id), DetailStaleTimeMs)
  }

  /** `useSeasonDetails(id, season)`: key `['season', id, season]`, enabled by `!!id && season >= 0`. */
  function SeasonDetailsQuery(id: JsNumber, season: int): QueryOptions {
    QueryOptions([Text("season"), Number(id), Number(Num(season))], SeasonDetails(id, season),
      Truthy(id) && season >= 0, DetailStaleTimeMs)
  }

  /**
   * The show query runs exactly for a non-zero id; 0 and NaN (an id that did
   * not parse) keep it idle.
   */
  lemma ShowQueryGate(id: JsNumber)
    ensures ShowDetailsQuery(id).enabled <==> id.Num? && id.value != 0
    ensures !ShowDetailsQuery(NaN).enabled && !ShowDetailsQuery(Num(0)).enabled
  {
  }

  /**
   * The season query runs exactly for a non-zero id and a season number of at
   * least 0, so the specials season 0 is fetched; and whenever the show query
   * is idle, so is every season query of that id.
   */
  lemma SeasonQueryGate(id: JsNumber, season: int)
    ensures SeasonDetailsQuery(id, season).enabled <==> id.Num? && id.value != 0 && season >= 0
    ensures SeasonDetailsQuery(id, season).enabled ==> ShowDetailsQuery(id).enabled
    ensures ShowDetailsQuery(id).enabled ==> SeasonDetailsQuery(id, 0).enabled
  {
  }

  /**
   * Both queries keep results fresh for 30 minutes and fetch the request of
   * their own path builder; show keys and season keys never collide, and
   * distinct arguments give distinct keys.
   */
  lemma DetailKeysInjective(a: JsNumber, s: int, b: JsNumber, t: int)
    ensures ShowDetailsQuery(a).staleTimeMs == SeasonDetailsQuery(a, s).staleTimeMs == 1800000
    ensures ShowDetailsQuery(a).key != SeasonDetailsQuery(b, t).key
    ensures ShowDetailsQuery(a).key == ShowDetailsQuery(b).key <==> a == b
    ensures SeasonDetailsQuery(a, s).key == SeasonDetailsQuery(b, t).key <==> a == b && s == t
  {
    if ShowDetailsQuery(a).key == ShowDetailsQuery(b).key {
      assert ShowDetailsQuery(a).key[1] == ShowDetailsQuery(b).key[1];
    }
    if SeasonDetailsQuery(a, s).key == SeasonDetailsQuery(b, t).key {
      assert SeasonDetailsQuery(a, s).key[1] == SeasonDetailsQuery(b, t).key[1];
      assert SeasonDetailsQuery(a, s).key[2] == SeasonDetailsQuery(b, t).key[2];
    }
  }

  /**
   * The cache key names the request: two season queries share a key exactly
   * when they fetch the same endpoint, and likewise for show queries.
   */
  lemma KeyIdentifiesRequest(a: JsNumber, s: int, b: JsNumber, t: int)
    ensures SeasonDetailsQuery(a, s).key == SeasonDetailsQuery(b, t).key
        <==> SeasonDetailsQuery(a, s).request == SeasonDetailsQuery(b, t).request
    ensures ShowDetailsQuery(a).key == ShowDetailsQuery(b).key
        <==> ShowDetailsQuery(a).request == ShowDetailsQuery(b).request
  {
    DetailKeysInjective(a, s, b, t);
    if SeasonDetails(a, s) == SeasonDetails(b, t) {
      SeasonPathInjective(a, s, b, t);
    }
    if ShowDetails(a) == ShowDetails(b) {
      ShowPathInjective(a, b);
    }
  }
}
