/**
 * The home page (src/Component/home/home.tsx): the API-key check behind the
 * warning banner, and the four carousels fed from the catalog queries.
 */
module Home {
  import opened Types
  import opened JsText
  import opened Tmdb

  const DemoKey := "demo_key"

  /** `API_KEY && API_KEY.trim() !== '' && API_KEY !== 'demo_key'`; None is an unset variable. */
  predicate HasApiKey(apiKey: Option<string>) {
    apiKey.Some? && apiKey.value != "" && Trim(apiKey.value) != "" && apiKey.value != DemoKey
  }

  /** `{!hasApiKey && <ApiKeyWarning />}`. */
  predicate WarningShown(apiKey: Option<string>) {
    !HasApiKey(apiKey)
  }

  /**
   * A key counts exactly when it is set, is not whitespace only (the empty
   * key included) and is not the placeholder "demo_key".
   */
  lemma HasApiKeyIff(apiKey: Option<string>)
    ensures HasApiKey(apiKey) <==> apiKey.Some? && !AllWhitespace(apiKey.value) && apiKey.value != DemoKey
  {
    if apiKey.Some? {
      TrimEmptyIffAllWhitespace(apiKey.value);
    }
  }

  /** The banner shows for an unset, empty, blank or placeholder key. */
  lemma WarningCases()
    ensures WarningShown(None) && WarningShown(Some("")) && WarningShown(Some(" \t")) && WarningShown(Some(DemoKey))
  {
    HasApiKeyIff(Some(" \t"));
  }

  /**
   * The banner checks a different variable from the one requests use: with
   * only the access token set the banner shows although requests carry the
   * token, and with only the key set the banner hides although requests carry
   * "Bearer undefined".
   */
  lemma WarningIgnoresAccessToken(token: string, key: string)
    requires !AllWhitespace(key) && key != DemoKey
    ensures WarningShown(Environment(None, Some(token)).apiKey)
    ensures AuthorizationHeader(Environment(None, Some(token))) == "Bearer " + token
    ensures !WarningShown(Environment(Some(key), None).apiKey)
    ensures AuthorizationHeader(Environment(Some(key), None)) == "Bearer undefined"
  {
    HasApiKeyIff(Some(key));
    assert "Bearer " + "undefined" == "Bearer undefined";
  }

  datatype Carousel = Carousel(title: string, shows: seq<TVShow>)

  const TrendingTitle := "\U{1F525} Trending This Week"
  const TopRatedTitle := "\U{2B50} Top Rated"
  const PopularTitle := "\U{1F4FA} Popular"
  const OnTheAirTitle := "\U{1F3AC} On The Air"

  /** The carousels in the order the page renders them, each fed `data?.results || []` of its own query. */
  function HomeCarousels(
    trending: Option<TMDBResponse<TVShow>>,
    popular: Option<TMDBResponse<TVShow>>,
    topRated: Option<TMDBResponse<TVShow>>,
    onTheAir: Option<TMDBResponse<TVShow>>): seq<Carousel>
  {
    [ Carousel(TrendingTitle, ResultsOrEmpty(trending)),
      Carousel(TopRatedTitle, ResultsOrEmpty(topRated)),
      Carousel(PopularTitle, ResultsOrEmpty(popular)),
      Carousel(OnTheAirTitle, ResultsOrEmpty(onTheAir)) ]
  }

  /** A carousel shows exactly its own query's results, and nothing while that query has no data. */
  predicate ShowsQuery(c: Carousel, query: Option<TMDBResponse<TVShow>>) {
    && (query.None? ==> c.shows == [])
    && (query.Some? ==> c.shows == query.value.results)
  }

  /**
   * Four carousels render in the order trending, top rated, popular, on the
   * air; each follows its own query whatever the other three hold, so one
   * query without data empties its carousel alone.
   */
  lemma CarouselsFollowTheirQueries(
    trending: Option<TMDBResponse<TVShow>>,
    popular: Option<TMDBResponse<TVShow>>,
    topRated: Option<TMDBResponse<TVShow>>,
    onTheAir: Option<TMDBResponse<TVShow>>)
    ensures var r := HomeCarousels(trending, popular, topRated, onTheAir);
      && |r| == 4
      && r[0].title == TrendingTitle && ShowsQuery(r[0], trending)
      && r[1].title == TopRatedTitle && ShowsQuery(r[1], topRated)
      && r[2].title == PopularTitle && ShowsQuery(r[2], popular)
      && r[3].title == OnTheAirTitle && ShowsQuery(r[3], onTheAir)
  {
  }
}
