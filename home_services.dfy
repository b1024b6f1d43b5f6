/**
 * The four catalog requests of the home page (src/services/home.services.ts):
 * trending in a time window, and the paged popular, top-rated and on-the-air
 * lists.
 */
module HomeServices {
  import opened JsNumbers
  import opened Tmdb

  datatype TimeWindow = Day | Week

  const DefaultTimeWindow := Week
  const DefaultPage := 1

  function WindowToken(window: TimeWindow): string {
    match window
    case Day => "day"
    case Week => "week"
  }

  /** `getTrendingShows$(timeWindow)`: no parameters at all. */
  function TrendingShows(window: TimeWindow): Request {
    Request("/trending/tv/" + WindowToken(window), [])
  }

  /** `{ page: page.toString() }`: the only parameter of the three paged lists. */
  function PageParams(page: int): seq<Param> {
    [Param("page", IntToString(page))]
  }

  function PopularShows(page: int): Request {
    Request("/tv/popular", PageParams(page))
  }

  function TopRatedShows(page: int): Request {
    Request("/tv/top_rated", PageParams(page))
  }

  function OnTheAirShows(page: int): Request {
    Request("/tv/on_the_air", PageParams(page))
  }

  /** Trending defaults to the weekly list and sends no parameters. */
  lemma TrendingDefaults()
    ensures TrendingShows(DefaultTimeWindow).endpoint == "/trending/tv/week"
    ensures forall w :: TrendingShows(w).params == []
  {
  }

  /** The two windows address different trending lists. */
  lemma TrendingWindowsDistinct()
    ensures TrendingShows(Day).endpoint != TrendingShows(Week).endpoint
  {
    assert TrendingShows(Day).endpoint[13] == 'd';
  }

  /** With the default page each paged list sends exactly `page=1`. */
  lemma DefaultPageSendsOne()
    ensures PopularShows(DefaultPage).params == [Param("page", "1")]
    ensures TopRatedShows(DefaultPage).params == [Param("page", "1")]
    ensures OnTheAirShows(DefaultPage).params == [Param("page", "1")]
  {
  }

  /**
   * Each paged list sends the single key `page`, and its value identifies the
   * page: two pages give the same request only when they are the same page.
   */
  lemma PageParamIdentifiesPage(p1: int, p2: int)
    ensures ParamKeys(PopularShows(p1).params) == ["page"]
    ensures ParamKeys(TopRatedShows(p1).params) == ["page"]
    ensures ParamKeys(OnTheAirShows(p1).params) == ["page"]
    ensures PopularShows(p1) == PopularShows(p2) <==> p1 == p2
    ensures TopRatedShows(p1) == TopRatedShows(p2) <==> p1 == p2
    ensures OnTheAirShows(p1) == OnTheAirShows(p2) <==> p1 == p2
  {
    if PageParams(p1) == PageParams(p2) {
      assert PageParams(p1)[0].value == PageParams(p2)[0].value;
      IntToStringInjective(p1, p2);
    }
  }

  /** The four catalog endpoints are pairwise distinct, whatever the window and pages. */
  lemma CatalogEndpointsDistinct(window: TimeWindow, p: int, q: int, r: int)
    ensures TrendingShows(window).endpoint != PopularShows(p).endpoint
    ensures TrendingShows(window).endpoint != TopRatedShows(q).endpoint
    ensures TrendingShows(window).endpoint != OnTheAirShows(r).endpoint
    ensures PopularShows(p).endpoint != TopRatedShows(q).endpoint
    ensures PopularShows(p).endpoint != OnTheAirShows(r).endpoint
    ensures TopRatedShows(q).endpoint != OnTheAirShows(r).endpoint
  {
    assert TrendingShows(window).endpoint[2] == 'r';
    assert PopularShows(p).endpoint[4] == 'p';
    assert TopRatedShows(q).endpoint[4] == 't';
    assert OnTheAirShows(r).endpoint[4] == 'o';
  }
}
