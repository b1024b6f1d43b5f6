/**
 * The search request (src/services/search.services.ts).
 */
module SearchServices {
  import opened JsNumbers
  import opened Tmdb

  const SearchEndpoint := "/search/tv"
  const DefaultSearchPage := 1

  /** `searchShows$(query, page)`: `{ query, page: page.toString() }`, in that order. */
  function SearchShows(query: string, page: int): Request {
    Request(SearchEndpoint, [Param("query", query), Param("page", IntToString(page))])
  }

  /**
   * Whatever the query, the endpoint is "/search/tv" and the parameters are
   * exactly `query` and `page`; the query travels unchanged (no trimming, no
   * case change) and the default page is sent as "1".
   */
  lemma SearchRequestShape(query: string, page: int)
    ensures SearchShows(query, page).endpoint == "/search/tv"
    ensures ParamKeys(SearchShows(query, page).params) == ["query", "page"]
    ensures SearchShows(query, page).params[0].value == query
    ensures SearchShows(query, DefaultSearchPage).params[1].value == "1"
  {
  }

  /** The request identifies both the query and the page. */
  lemma SearchRequestInjective(q1: string, p1: int, q2: string, p2: int)
    requires SearchShows(q1, p1) == SearchShows(q2, p2)
    ensures q1 == q2 && p1 == p2
  {
    assert SearchShows(q1, p1).params[1].value == SearchShows(q2, p2).params[1].value;
    IntToStringInjective(p1, p2);
  }
}
