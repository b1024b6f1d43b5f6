/**
 * The search page (src/components/search/Search.tsx): the typed query, the
 * results of the debounced query, and which of the result panels render.
 * The 300 ms debounce is a timer and is not modelled: the debounced string is
 * an input.
 */
module SearchPage {
  import opened Types
  import opened UseSearch

  /** The five blocks of the results area; each renders on its own condition. */
  datatype SearchPanels = SearchPanels(
    idlePrompt: bool,
    skeleton: bool,
    errorMessage: bool,
    noResults: bool,
    resultGrid: bool)

  predicate HasResults(results: seq<TVShow>) {
    |results| > 0
  }

  function Panels(debounced: string, data: Option<TMDBResponse<TVShow>>, isLoading: bool, isError: bool): SearchPanels {
    var hasQuery := HasQuery(debounced);
    var hasResults := HasResults(ResultsOrEmpty(data));
    SearchPanels(
      !hasQuery,
      isLoading && hasQuery,
      isError && hasQuery,
      !isLoading && hasQuery && !hasResults,
      !isLoading && hasResults)
  }

  /** `data?.total_results || results.length`: the reported total, unless it is 0 or absent. */
  function ResultCount(data: Option<TMDBResponse<TVShow>>): int {
    if data.Some? && data.value.totalResults != 0 then data.value.totalResults
    else |ResultsOrEmpty(data)|
  }

  /**
   * The idle prompt renders exactly without a query and then alone; the
   * skeleton and the result grid exclude each other, and so do "no results"
   * and the grid; without data there is no grid; and a grid always reports a
   * non-zero count.
   */
  lemma PanelExclusions(debounced: string, data: Option<TMDBResponse<TVShow>>, isLoading: bool, isError: bool)
    ensures var p := Panels(debounced, data, isLoading, isError);
      && (p.idlePrompt <==> debounced == "")
      && (p.idlePrompt ==> !p.skeleton && !p.errorMessage && !p.noResults)
      && !(p.skeleton && p.resultGrid)
      && !(p.noResults && p.resultGrid)
      && (data.None? ==> !p.resultGrid)
      && (p.resultGrid ==> ResultCount(data) != 0)
  {
  }

  /** The error message and "No results found" are not exclusive: a failed, settled query shows both. */
  lemma ErrorAndNoResultsTogether()
    ensures var p := Panels("a", None, false, true); p.errorMessage && p.noResults
  {
  }

  /** The page's own state: the text in the input. */
  class SearchPageView {
    var query: string

    constructor ()
      ensures query == ""
    {
      query := "";
    }

    /** The clear button renders while the input holds text. */
    predicate ClearButtonVisible()
      reads this
    {
      query != ""
    }

    /** `onChange`: the input's value becomes the query. */
    method InputChanged(value: string)
      modifies this
      ensures query == value
    {
      query := value;
    }

    /** The clear button empties the query, which hides the button. */
    method ClearQuery()
      requires ClearButtonVisible()
      modifies this
      ensures query == "" && !ClearButtonVisible()
    {
      query := "";
    }
  }
}
