/**
 * The show detail page (src/Component/showDetail/showdetail.tsx): the show id
 * taken from the route, the season list offered to the viewer, the season
 * chosen by default once the show has loaded, and the season selector's state.
 */
module ShowDetail {
  import opened Types
  import opened JsNumbers
  import opened Queries
  import opened UseEpisodes
  import EpisodeServices

  /** `id || '0'`: a missing or empty route parameter is read as "0". */
  function RouteIdText(routeId: Option<string>): string {
    if routeId.None? || routeId.value == "" then "0" else routeId.value
  }

  /**
   * `parseInt(id || '0', 10)`. Parsing arbitrary text is the platform's
   * business and is passed in.
   */
  function ShowIdFromRoute(routeId: Option<string>, parseInt: string -> JsNumber): JsNumber {
    parseInt(RouteIdText(routeId))
  }

  /** What `parseInt(text, 10)` does with a non-empty string of decimal digits: it reads its value. */
  ghost predicate ParsesDecimals(parseInt: string -> JsNumber) {
    forall text | text != "" && AllDigits(text) :: parseInt(text) == Num(DigitsValue(text))
  }

  /** Without a route id the page asks for show 0, so neither detail query runs. */
  lemma MissingIdDisablesDetailQueries(parseInt: string -> JsNumber, season: int)
    requires ParsesDecimals(parseInt)
    ensures ShowIdFromRoute(None, parseInt) == Num(0) && ShowIdFromRoute(Some(""), parseInt) == Num(0)
    ensures !ShowDetailsQuery(ShowIdFromRoute(None, parseInt)).enabled
    ensures !SeasonDetailsQuery(ShowIdFromRoute(None, parseInt), season).enabled
  {
    assert AllDigits("0") && DigitsValue("0") == 0;
  }

  /**
   * A decimal route id is the show id it denotes, and the show query runs
   * exactly when that id is not 0 ("0" and "000" included).
   */
  lemma DecimalRouteId(parseInt: string -> JsNumber, routeId: string)
    requires ParsesDecimals(parseInt)
    requires routeId != "" && AllDigits(routeId)
    ensures ShowIdFromRoute(Some(routeId), parseInt) == Num(DigitsValue(routeId))
    ensures ShowDetailsQuery(ShowIdFromRoute(Some(routeId), parseInt)).enabled <==> DigitsValue(routeId) != 0
  {
  }

  /** `seasons.find(s => s.season_number > 0)`. */
  function FirstRegularSeason(seasons: seq<Season>): (r: Option<Season>)
    ensures r.Some? ==> r.value in seasons && r.value.seasonNumber > 0
    ensures r.None? ==> forall i | 0 <= i < |seasons| :: seasons[i].seasonNumber <= 0
  {
    if seasons == [] then None
    else if seasons[0].seasonNumber > 0 then Some(seasons[0])
    else FirstRegularSeason(seasons[1..])
  }

  /** `seasons.filter(s => s.season_number > 0)`: the specials (season 0) are dropped. */
  function RegularSeasons(seasons: seq<Season>): (r: seq<Season>)
    ensures |r| <= |seasons|
    ensures forall i | 0 <= i < |r| :: r[i].seasonNumber > 0 && r[i] in seasons
    ensures forall i | 0 <= i < |seasons| :: seasons[i].seasonNumber > 0 ==> seasons[i] in r
  {
    if seasons == [] then []
    else (if seasons[0].seasonNumber > 0 then [seasons[0]] else []) + RegularSeasons(seasons[1..])
  }

  /** The filter keeps the order of the list: filtering a concatenation filters each part. */
  lemma {:induction false} RegularSeasonsDistributes(a: seq<Season>, b: seq<Season>)
    ensures RegularSeasons(a + b) == RegularSeasons(a) + RegularSeasons(b)
  {
    if a != [] {
      assert (a + b)[1..] == a[1..] + b;
      RegularSeasonsDistributes(a[1..], b);
    } else {
      assert a + b == b;
    }
  }

  /** `find` returns the first element that `filter` keeps. */
  lemma {:induction false} FirstRegularIsHeadOfRegular(seasons: seq<Season>)
    ensures FirstRegularSeason(seasons) == if RegularSeasons(seasons) == [] then None else Some(RegularSeasons(seasons)[0])
  {
    if seasons != [] && seasons[0].seasonNumber <= 0 {
      FirstRegularIsHeadOfRegular(seasons[1..]);
    }
  }

  /** `show?.seasons?.filter(s => s.season_number > 0) || []`. */
  function AvailableSeasons(show: Option<TVShowDetails>): seq<Season> {
    match show
    case None => []
    case Some(details) => RegularSeasons(details.seasons)
  }

  /** The season selector is rendered only when some season is available. */
  predicate SeasonSelectorVisible(show: Option<TVShowDetails>) {
    |AvailableSeasons(show)| > 0
  }

  /** The effect's choice: the first season numbered above 0, or else the first season. */
  function DefaultSeasonNumber(seasons: seq<Season>): int
    requires |seasons| > 0
  {
    match FirstRegularSeason(seasons)
    case Some(s) => s.seasonNumber
    case None => seasons[0].seasonNumber
  }

  /**
   * The default season is the first available season whenever there is one,
   * so the selector always offers it; with only specials it is the first
   * listed season.
   */
  lemma DefaultSeasonIsFirstAvailable(seasons: seq<Season>)
    requires |seasons| > 0
    ensures RegularSeasons(seasons) != [] ==>
      DefaultSeasonNumber(seasons) == RegularSeasons(seasons)[0].seasonNumber
      && exists s | s in RegularSeasons(seasons) :: s.seasonNumber == DefaultSeasonNumber(seasons)
    ensures RegularSeasons(seasons) == [] ==> DefaultSeasonNumber(seasons) == seasons[0].seasonNumber
  {
    FirstRegularIsHeadOfRegular(seasons);
    if RegularSeasons(seasons) != [] {
      assert RegularSeasons(seasons)[0] in RegularSeasons(seasons);
    }
  }

  /**
   * A show whose only season is the specials season 0: the page selects 0,
   * fetches that season (0 passes the `season >= 0` gate), and hides the
   * selector because no season is available.
   */
  lemma SpecialsOnlyShow(id: JsNumber, details: TVShowDetails)
    requires Truthy(id)
    requires |details.seasons| == 1 && details.seasons[0].seasonNumber == 0
    ensures DefaultSeasonNumber(details.seasons) == 0
    ensures SeasonDetailsQuery(id, DefaultSeasonNumber(details.seasons)).enabled
    ensures !SeasonSelectorVisible(Some(details))
  {
    assert details.seasons[1..] == [];
  }

  /** `{n} Season{n !== 1 ? 's' : ''}`. */
  function SeasonCountLabel(numberOfSeasons: int): string {
    IntToString(numberOfSeasons) + " Season" + (if numberOfSeasons != 1 then "s" else "")
  }

  /** The label starts with the count and is plural for every count except 1 (0 included). */
  lemma SeasonCountLabelPlural(n: int)
    ensures var text := SeasonCountLabel(n);
      IntToString(n) <= text && (text[|text| - 1] == 's' <==> n != 1)
    ensures SeasonCountLabel(1) == "1 Season" && SeasonCountLabel(0) == "0 Seasons"
  {
    assert IntToString(1) == "1";
    assert IntToString(0) == "0";
  }

  /**
   * Moving to another show keeps the mounted page, so the previous show's
   * season is requested for the new show until the new show's data arrives:
   * when that season is not the new show's default, it is a different request
   * from the one the page settles on, and it does run.
   */
  lemma RouteChangeRequestsStaleSeason(newId: JsNumber, oldSeason: int, details: TVShowDetails)
    requires Truthy(newId) && oldSeason >= 0
    requires |details.seasons| > 0 && DefaultSeasonNumber(details.seasons) != oldSeason
    ensures SeasonDetailsQuery(newId, oldSeason).enabled
    ensures SeasonDetailsQuery(newId, oldSeason).request != SeasonDetailsQuery(newId, DefaultSeasonNumber(details.seasons)).request
  {
    var settled := DefaultSeasonNumber(details.seasons);
    if EpisodeServices.SeasonDetails(newId, oldSeason) == EpisodeServices.SeasonDetails(newId, settled) {
      EpisodeServices.SeasonPathInjective(newId, oldSeason, newId, settled);
    }
  }

  /**
   * The page's own state: the show id read from the current route, the chosen
   * season, the selector. Every `/show/:id` route renders the same page, so a
   * move to another show updates the id and keeps the rest.
   */
  class ShowDetailPage {
    var showId: JsNumber
    var selectedSeason: int
    var isSeasonDropdownOpen: bool

    /** `useState(1)` and `useState(false)`. */
    constructor (routeId: Option<string>, parseInt: string -> JsNumber)
      ensures showId == ShowIdFromRoute(routeId, parseInt)
      ensures selectedSeason == 1 && !isSeasonDropdownOpen
    {
      showId := ShowIdFromRoute(routeId, parseInt);
      selectedSeason := 1;
      isSeasonDropdownOpen := false;
    }

    /** The query the page issues for the season it shows. */
    function SeasonQuery(): QueryOptions
      reads this
    {
      SeasonDetailsQuery(showId, selectedSeason)
    }

    /**
     * The route moves to another show (a suggestion picked in the navbar, or
     * browser history): the id is read from the new route, while the selected
     * season and the dropdown keep the previous show's values, so the season
     * query asks for the old season of the new show.
     */
    method RouteChanged(routeId: Option<string>, parseInt: string -> JsNumber)
      modifies this
      ensures showId == ShowIdFromRoute(routeId, parseInt)
      ensures selectedSeason == old(selectedSeason) && isSeasonDropdownOpen == old(isSeasonDropdownOpen)
      ensures SeasonQuery() == SeasonDetailsQuery(ShowIdFromRoute(routeId, parseInt), old(selectedSeason))
    {
      showId := ShowIdFromRoute(routeId, parseInt);
    }

    /**
     * The effect on `[show]`: with a non-empty season list the default season
     * is selected; otherwise the selection is left as it was.
     */
    method ShowChanged(show: Option<TVShowDetails>)
      modifies this
      ensures show.Some? && |show.value.seasons| > 0 ==> selectedSeason == DefaultSeasonNumber(show.value.seasons)
      ensures !(show.Some? && |show.value.seasons| > 0) ==> selectedSeason == old(selectedSeason)
      ensures SeasonSelectorVisible(show) ==> selectedSeason == AvailableSeasons(show)[0].seasonNumber
      ensures show.Some? && |show.value.seasons| == 1 && show.value.seasons[0].seasonNumber == 0 && Truthy(showId) ==>
        selectedSeason == 0 && SeasonQuery().enabled && !SeasonSelectorVisible(show)
      ensures showId == old(showId) && isSeasonDropdownOpen == old(isSeasonDropdownOpen)
    {
      if show.Some? && |show.value.seasons| > 0 {
        DefaultSeasonIsFirstAvailable(show.value.seasons);
        if |show.value.seasons| == 1 && show.value.seasons[0].seasonNumber == 0 && Truthy(showId) {
          SpecialsOnlyShow(showId, show.value);
        }
        var first := FirstRegularSeason(show.value.seasons);
        var chosen := if first.Some? then first.value else show.value.seasons[0];
        selectedSeason := chosen.seasonNumber;
      }
    }

    /** The selector button flips the dropdown and changes nothing else. */
    method ToggleSeasonDropdown()
      modifies this
      ensures isSeasonDropdownOpen == !old(isSeasonDropdownOpen)
      ensures showId == old(showId) && selectedSeason == old(selectedSeason)
    {
      isSeasonDropdownOpen := !isSeasonDropdownOpen;
    }

    /**
     * Clicking the i-th entry of the dropdown (which lists the available
     * seasons) selects that season and closes the dropdown; the selected
     * season is then never the specials season.
     */
    method ChooseSeason(show: Option<TVShowDetails>, i: nat)
      requires i < |AvailableSeasons(show)|
      modifies this
      ensures selectedSeason == AvailableSeasons(show)[i].seasonNumber && selectedSeason > 0
      ensures showId == old(showId) && !isSeasonDropdownOpen
    {
      selectedSeason := AvailableSeasons(show)[i].seasonNumber;
      isSeasonDropdownOpen := false;
    }
  }
}
