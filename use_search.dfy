/**
 * The search query (src/hooks/useSearch.ts), and the "has query" flag that
 * both search views derive from the same debounced string.
 */
module UseSearch {
  import opened Tmdb
  import opened Queries
  import opened SearchServices

  const SearchStaleTimeMs := 300000

  /** `query.length >= 1`, with no trimming. */
  predicate HasQuery(query: string) {
    |query| >= 1
  }

  /** `useSearchShows(query)`: key `['search', query]`, the default page. */
  function SearchQuery(query: string): QueryOptions {
    QueryOptions([Text("search"), Text(query)], SearchShows(query, DefaultSearchPage),
      HasQuery(query), SearchStaleTimeMs)
  }

  /**
   * The search runs exactly for a non-empty query; a query of spaces is not
   * trimmed and runs too.
   */
  lemma SearchGate(query: string)
    ensures SearchQuery(query).enabled <==> query != ""
    ensures !SearchQuery("").enabled && SearchQuery(" ").enabled
  {
  }

  /**
   * The key is `['search', query]`, distinct queries get distinct keys, and
   * the query function sends the query unchanged; results stay fresh for
   * five minutes.
   */
  lemma SearchKeyInjective(q1: string, q2: string)
    ensures SearchQuery(q1).key == SearchQuery(q2).key <==> q1 == q2
    ensures SearchQuery(q1).request.params[0] == Param("query", q1)
    ensures SearchQuery(q1).staleTimeMs == 300000
  {
    if SearchQuery(q1).key == SearchQuery(q2).key {
      assert SearchQuery(q1).key[1] == SearchQuery(q2).key[1];
    }
  }
}
