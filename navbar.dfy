/**
 * The top navigation bar (src/components/navbar/Navbar.tsx): the suggestions
 * it passes to the dropdown, and its three pieces of state. Navigation is
 * returned as the path the handler navigates to; the router's resulting
 * location change is the separate `LocationChanged` step.
 */
module Navbar {
  import opened Types
  import opened JsNumbers
  import opened UseSearch
  import opened SearchDropdown

  const SuggestionLimit := 6
  const SearchRoute := "/search"

  /** `data?.results?.slice(0, 6) || []`. */
  function Suggestions(data: Option<TMDBResponse<TVShow>>): (r: seq<TVShow>)
    ensures r <= ResultsOrEmpty(data)
    ensures |r| == if |ResultsOrEmpty(data)| < SuggestionLimit then |ResultsOrEmpty(data)| else SuggestionLimit
  {
    var results := ResultsOrEmpty(data);
    if |results| < SuggestionLimit then results else results[..SuggestionLimit]
  }

  /** The block the dropdown shows for the navbar's props. */
  function DropdownPanel(debounced: string, data: Option<TMDBResponse<TVShow>>, isLoading: bool, isError: bool): Panel {
    ChosenPanel(HasQuery(debounced), isLoading, isError, |Suggestions(data)|)
  }

  /**
   * The suggestion list appears only for a non-empty debounced query whose
   * settled, successful search has results, and then shows the first one to
   * six of them.
   */
  lemma SuggestionListShowsFirstResults(debounced: string, data: Option<TMDBResponse<TVShow>>, isLoading: bool, isError: bool)
    requires DropdownPanel(debounced, data, isLoading, isError) == SuggestionList
    ensures debounced != "" && !isLoading && !isError && data.Some?
    ensures 1 <= |Suggestions(data)| <= SuggestionLimit
    ensures forall i | 0 <= i < |Suggestions(data)| :: Suggestions(data)[i] == data.value.results[i]
  {
  }

  /** `/show/${id}`. */
  function ShowRoute(id: int): string {
    "/show/" + IntToString(id)
  }

  /** Distinct shows are opened at distinct routes. */
  lemma ShowRouteInjective(a: int, b: int)
    requires ShowRoute(a) == ShowRoute(b)
    ensures a == b
  {
    assert IntToString(a) == ShowRoute(a)[6..];
    assert IntToString(b) == ShowRoute(b)[6..];
    IntToStringInjective(a, b);
  }

  class NavbarState {
    var query: string
    var isSearchDropdownOpen: bool
    var isMobileMenuOpen: bool

    constructor ()
      ensures query == "" && !isSearchDropdownOpen && !isMobileMenuOpen
    {
      query := "";
      isSearchDropdownOpen := false;
      isMobileMenuOpen := false;
    }

    /** Typing sets the query and opens the dropdown. */
    method InputChanged(value: string)
      modifies this
      ensures query == value && isSearchDropdownOpen
      ensures isMobileMenuOpen == old(isMobileMenuOpen)
    {
      query := value;
      isSearchDropdownOpen := true;
    }

    /** Click or focus on the input: on mobile go to the search page, otherwise open the dropdown. */
    method SearchTriggerClicked(isMobile: bool) returns (navigateTo: Option<string>)
      modifies this
      ensures isMobile ==> navigateTo == Some(SearchRoute) && isSearchDropdownOpen == old(isSearchDropdownOpen)
      ensures !isMobile ==> navigateTo.None? && isSearchDropdownOpen
      ensures query == old(query) && isMobileMenuOpen == old(isMobileMenuOpen)
    {
      if isMobile {
        navigateTo := Some(SearchRoute);
      } else {
        navigateTo := None;
        isSearchDropdownOpen := true;
      }
    }

    /** `handleSelectShow`: go to the show's page and close the dropdown. */
    method SelectShow(id: int) returns (navigateTo: Option<string>)
      modifies this
      ensures navigateTo == Some(ShowRoute(id)) && !isSearchDropdownOpen
      ensures query == old(query) && isMobileMenuOpen == old(isMobileMenuOpen)
    {
      navigateTo := Some(ShowRoute(id));
      isSearchDropdownOpen := false;
    }

    /** The dropdown's `onClose`. */
    method CloseDropdown()
      modifies this
      ensures !isSearchDropdownOpen
      ensures query == old(query) && isMobileMenuOpen == old(isMobileMenuOpen)
    {
      isSearchDropdownOpen := false;
    }

    /** Mousedown on a suggestion: `onSelect(show.id)`, then `onClose()`. */
    method SuggestionChosen(show: TVShow) returns (navigateTo: Option<string>)
      modifies this
      ensures navigateTo == Some(ShowRoute(show.id)) && !isSearchDropdownOpen
      ensures query == old(query) && isMobileMenuOpen == old(isMobileMenuOpen)
    {
      navigateTo := SelectShow(show.id);
      CloseDropdown();
    }

    /**
     * The document `mousedown` listener, attached while the dropdown is open:
     * a press outside the search area closes the dropdown, one inside leaves
     * everything as it is.
     */
    method DocumentMouseDown(insideSearchArea: bool)
      requires isSearchDropdownOpen
      modifies this
      ensures isSearchDropdownOpen == insideSearchArea
      ensures query == old(query) && isMobileMenuOpen == old(isMobileMenuOpen)
    {
      if !insideSearchArea {
        isSearchDropdownOpen := false;
      }
    }

    /** The effect on `[location]`: both menus close. */
    method LocationChanged()
      modifies this
      ensures !isMobileMenuOpen && !isSearchDropdownOpen && query == old(query)
    {
      isMobileMenuOpen := false;
      isSearchDropdownOpen := false;
    }

    /** The mobile toggle flips the mobile menu and nothing else. */
    method ToggleMobileMenu()
      modifies this
      ensures isMobileMenuOpen == !old(isMobileMenuOpen)
      ensures query == old(query) && isSearchDropdownOpen == old(isSearchDropdownOpen)
    {
      isMobileMenuOpen := !isMobileMenuOpen;
    }
  }
}
