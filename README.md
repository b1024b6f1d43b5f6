# Streamify client core in Dafny

Streamify is a browser front end for a hosted TV metadata API. This project models the logic it owns itself:

- the HTTP client: image URLs, request URLs, and how one request settles;
- the endpoint builders of the catalog, detail and search services;
- the `enabled` gates and cache keys of the detail and search queries;
- the view-model derivations and state flags of the show detail page, the episode card, the search page, the navbar and its suggestion dropdown, the SEO head and the home page.

Layout, one module per source file:

- `Tmdb` (`tmdb.dfy`)
- `HomeServices`, `EpisodeServices`, `SearchServices`
- `UseEpisodes`, `UseSearch`
- `ShowDetail`, `EpisodeCard`, `SearchPage`, `Navbar`, `SearchDropdown`, `Seo`, `Home`

Four helper modules support them:

- `Types` holds the payload datatypes of `src/types/index.ts`. Nullable paths are `Option<string>`.
- `JsNumbers` holds JavaScript truthiness and `toString` for integral numbers and NaN.
- `JsText` holds `trimEnd`/`trim` over ECMAScript whitespace.
- `Queries` holds the shape of the options handed to `useQuery`.

Pure code is written as functions with lemmas. State that a component updates in place is a class whose methods state the whole new state:

- the request's timer and delivery flags;
- the selected season and the season dropdown;
- the overview flag;
- the search input;
- the navbar's query and its two menus.

The configured base URLs are parameters. The `URLSearchParams` encoder and `parseInt` are function-typed parameters: lemmas that need a fact about them state it in their `requires`.

Facts the model records as they are:

- The home page's warning checks `VITE_TMDB_API_KEY`, but requests authenticate with `VITE_TMDB_ACCESS_TOKEN`. The banner and the credentials are therefore independent (`Home.WarningIgnoresAccessToken`).
- A show whose only season is season 0 selects season 0 and fetches it. Its season selector stays hidden (`ShowDetail.SpecialsOnlyShow`).
- The search page's error message and its "No results found" message can render together (`SearchPage.ErrorAndNoResultsTogether`).
- The image helpers put no separator between the size token and the path (`Tmdb.NoSeparatorBeforePath`).
- Every `/show/:id` route renders the same mounted page. Moving to another show changes the id but keeps the selected season, so the new show's old-numbered season is fetched before its own default is chosen (`ShowDetail.ShowDetailPage.RouteChanged`, `ShowDetail.RouteChangeRequestsStaleSeason`).

## Model

| member | source | states |
|---|---|---|
| JsNumbers.NatToString | src/services/home.services.ts:10 | the decimal rendering of a page or id is non-empty, all digits, with no leading zero |
| JsNumbers.NatToStringRoundTrip | src/services/home.services.ts:10 | reading the digits back gives the number: the rendering loses nothing |
| JsNumbers.IntToString | src/services/episode.services.ts:9 | `n.toString()` starts with '-' exactly for negative n and holds only digits and '-' |
| JsNumbers.ToString | src/services/episode.services.ts:6 | a rendered id (NaN included) is non-empty and made only of digits, '-' and the letters of "NaN" |
| JsNumbers.IntToStringInjective | src/services/episode.services.ts:9 | distinct integers render to distinct strings |
| JsNumbers.ToStringInjective | src/services/episode.services.ts:6 | distinct ids, NaN included, render to distinct strings |
| JsText.TrimEnd | src/Component/shows/EpisodeCard.tsx:25 | `trimEnd` returns a prefix that does not end in whitespace, and only whitespace was removed |
| JsText.TrimStart | src/Component/home/home.tsx:17 | `trimStart` returns a suffix that does not start with whitespace, and only whitespace was removed |
| JsText.TrimEmptyIffAllWhitespace | src/Component/home/home.tsx:17 | `trim()` gives "" exactly for whitespace-only strings, the empty one included |
| Tmdb.ResolveImage | src/services/tmdb.ts:21-25 | the resolver yields no URL exactly when the path is absent or "" |
| Tmdb.FalsyPathHasNoUrl | src/services/tmdb.ts:23 | a null or empty path yields null in both helpers, whatever the size |
| Tmdb.DefaultSizes | src/services/tmdb.ts:19-24 | the poster default is w500 and the backdrop default is w1280; a URL is base + "/" + token + path |
| Tmdb.NoSeparatorBeforePath | src/services/tmdb.ts:24 | nothing is inserted between the size token and the path |
| Tmdb.BackdropAgreesWithPoster | src/services/tmdb.ts:29-38 | for w780 and original the backdrop helper returns what the poster helper returns |
| Tmdb.ResolveImageInjective | src/services/tmdb.ts:24 | a resolved URL identifies both its size and its path |
| Tmdb.ParamKeys | src/services/tmdb.ts:45 | the keys of a params record, in insertion order |
| Tmdb.UrlWithoutParamsEndsInQueryMark | src/services/tmdb.ts:48-49 | a request with empty params is base + endpoint + "?", and the "?" is kept |
| Tmdb.RequestUrlIdentifiesEndpoint | src/services/tmdb.ts:49 | endpoints without "?" that give the same URL are the same endpoint |
| Tmdb.Classify | src/services/tmdb.ts:63-73 | a value is emitted iff the status is 2xx and the body parses; a non-ok status is an HTTP error with that status whatever the body; a rejection is a transport error |
| Tmdb.HttpErrorMessageInjective | src/services/tmdb.ts:65 | the message "TMDB Error: " + status identifies the status |
| Tmdb.TmdbRequest.constructor | src/services/tmdb.ts:47-52 | subscribing fixes the URL and arms a 15000 ms timer; nothing has been delivered yet |
| Tmdb.TmdbRequest.TimerFires | src/services/tmdb.ts:52 | when the timer elapses the controller aborts; nothing is delivered by that step |
| Tmdb.TmdbRequest.Unsubscribe | src/services/tmdb.ts:75 | the teardown aborts the controller and leaves the timer as it was |
| Tmdb.TmdbRequest.Settle | src/services/tmdb.ts:63-75 | every settlement clears the timer; a live subscriber gets exactly one value then completion, or the error and no value; either closes the subscriber, whose teardown aborts the controller, so every settled request ends closed and aborted |
| HomeServices.TrendingDefaults | src/services/home.services.ts:5-6 | the trending window defaults to "week" and no params are sent |
| HomeServices.TrendingWindowsDistinct | src/services/home.services.ts:6 | the day and week windows address different paths |
| HomeServices.DefaultPageSendsOne | src/services/home.services.ts:8-21 | with the default page, popular, top-rated and on-the-air each send exactly page=1 |
| HomeServices.PageParamIdentifiesPage | src/services/home.services.ts:8-21 | the only key sent is `page`, and two pages give the same request iff they are equal |
| HomeServices.CatalogEndpointsDistinct | src/services/home.services.ts:6-19 | the four catalog endpoints are pairwise distinct |
| EpisodeServices.ShowPathPrefixesSeasonPath | src/services/episode.services.ts:5-9 | the show path is a strict prefix of each of that show's season paths |
| EpisodeServices.ShowPathInjective | src/services/episode.services.ts:6 | distinct show ids give distinct show paths |
| EpisodeServices.SeasonPathInjective | src/services/episode.services.ts:9 | distinct (show, season) pairs give distinct season paths |
| EpisodeServices.EndpointsHaveNoQueryMark | src/services/episode.services.ts:5-9 | neither detail path contains "?" |
| EpisodeServices.SeasonUrlsDistinct | src/services/episode.services.ts:5-9 | neither builder passes params, so the URL ends in "?"; distinct pairs are fetched from distinct URLs |
| SearchServices.SearchRequestShape | src/services/search.services.ts:5-9 | the endpoint is "/search/tv"; the keys are exactly query then page; the query is sent unchanged; the default page is "1" |
| SearchServices.SearchRequestInjective | src/services/search.services.ts:5-9 | the request identifies both the query and the page |
| UseEpisodes.ShowQueryGate | src/hooks/useEpisodes.ts:13 | the show query runs iff the id is a non-zero number; 0 and NaN keep it idle |
| UseEpisodes.SeasonQueryGate | src/hooks/useEpisodes.ts:21 | the season query runs iff the id is non-zero and season >= 0; it never runs while the show query is idle; season 0 runs |
| UseEpisodes.DetailKeysInjective | src/hooks/useEpisodes.ts:11-19 | keys are ['show', id] and ['season', id, season]; they never collide and distinct arguments give distinct keys; both stale times are 1800000 ms |
| UseEpisodes.KeyIdentifiesRequest | src/hooks/useEpisodes.ts:9-23 | two detail queries share a key iff they fetch the same request |
| UseSearch.SearchGate | src/hooks/useSearch.ts:10 | the search runs iff the query is non-empty; a query of spaces runs |
| UseSearch.SearchKeyInjective | src/hooks/useSearch.ts:8-11 | the key is ['search', query] and is injective; the query is sent unchanged; the stale time is 300000 ms |
| ShowDetail.MissingIdDisablesDetailQueries | src/Component/showDetail/showdetail.tsx:16 | when `parseInt` reads decimal digit strings as their value, a missing or empty route id becomes show 0, and then neither detail query runs |
| ShowDetail.DecimalRouteId | src/Component/showDetail/showdetail.tsx:16 | a decimal route id becomes the show id it denotes, and the show query runs iff that id is not 0 |
| ShowDetail.RouteChangeRequestsStaleSeason | src/Component/showDetail/showdetail.tsx:16-23 | after a move to another show, the previous season of the new show is requested and runs; unless it is the new show's default, it is not the request the page settles on |
| ShowDetail.FirstRegularSeason | src/Component/showDetail/showdetail.tsx:28 | `find` returns a listed season numbered above 0, or none when every season is at most 0 |
| ShowDetail.RegularSeasons | src/Component/showDetail/showdetail.tsx:62-63 | the filter keeps exactly the listed seasons numbered above 0 |
| ShowDetail.RegularSeasonsDistributes | src/Component/showDetail/showdetail.tsx:62-63 | the filter preserves order: filtering a concatenation concatenates the filtered parts |
| ShowDetail.FirstRegularIsHeadOfRegular | src/Component/showDetail/showdetail.tsx:28 | `find` returns the first element that `filter` keeps |
| ShowDetail.DefaultSeasonIsFirstAvailable | src/Component/showDetail/showdetail.tsx:26-29 | the default season is the first available one and is offered by the selector; with only specials it is seasons[0] |
| ShowDetail.SpecialsOnlyShow | src/Component/showDetail/showdetail.tsx:28 | a show with only season 0 selects 0, fetches it, and hides the selector |
| ShowDetail.SeasonCountLabelPlural | src/Component/showDetail/showdetail.tsx:158 | the label starts with the count and ends in "s" iff the count is not 1 |
| ShowDetail.ShowDetailPage.constructor | src/Component/showDetail/showdetail.tsx:15-19 | the show id comes from the route; the selected season starts at 1 with the dropdown closed |
| ShowDetail.ShowDetailPage.RouteChanged | src/Component/showDetail/showdetail.tsx:16-23 | a new route changes the show id and keeps the selected season and the dropdown, so the season query asks for the old season of the new show |
| ShowDetail.ShowDetailPage.ShowChanged | src/Component/showDetail/showdetail.tsx:26-31 | a non-empty season list selects the default season, which is the first available one when the selector shows; otherwise the selection is kept; a specials-only show selects 0, its season query runs, and the selector stays hidden |
| ShowDetail.ShowDetailPage.ToggleSeasonDropdown | src/Component/showDetail/showdetail.tsx:206 | the button flips the dropdown flag and keeps the selection |
| ShowDetail.ShowDetailPage.ChooseSeason | src/Component/showDetail/showdetail.tsx:224-229 | choosing an available season selects its number, which is above 0, and closes the dropdown |
| EpisodeCard.OverviewText | src/Component/shows/EpisodeCard.tsx:21 | an empty overview becomes the non-empty placeholder; any other overview is kept |
| EpisodeCard.TruncatedOverviewBounds | src/Component/shows/EpisodeCard.tsx:22-25 | a collapsed long overview shows at most 201 characters: a prefix of the text without trailing whitespace, then "…" |
| EpisodeCard.DisplayOverviewFull | src/Component/shows/EpisodeCard.tsx:22-24 | expanded, or at most 200 characters, the overview is shown exactly; collapsed and over 201, it is shortened |
| EpisodeCard.EpisodeCardView.constructor | src/Component/shows/EpisodeCard.tsx:16 | the overview starts collapsed |
| EpisodeCard.EpisodeCardView.ClickExpand | src/Component/shows/EpisodeCard.tsx:78-81 | the button, shown for a long collapsed overview, expands it for good and hides itself |
| SearchPage.PanelExclusions | src/components/search/Search.tsx:15-17 | the idle icon shows iff there is no query, and then no skeleton, error or "no results" shows; skeleton and grid exclude each other, and so do "no results" and grid; no data means no grid; a grid reports a non-zero count |
| SearchPage.ErrorAndNoResultsTogether | src/components/search/Search.tsx:86-95 | the error message and "No results found" can render together |
| SearchPage.SearchPageView.constructor | src/components/search/Search.tsx:11 | the query starts empty |
| SearchPage.SearchPageView.InputChanged | src/components/search/Search.tsx:51 | typing sets the query to the input value |
| SearchPage.SearchPageView.ClearQuery | src/components/search/Search.tsx:55-58 | the clear button, shown for a non-empty query, empties it and hides itself |
| SearchDropdown.ExactlyOnePanel | src/components/navbar/SearchDropdown.tsx:17-51 | for every combination of props exactly one of the five blocks renders, the one the decision list picks |
| Navbar.Suggestions | src/components/navbar/Navbar.tsx:24 | the suggestions are the first min(6, n) results in order, or none without data |
| Navbar.SuggestionListShowsFirstResults | src/components/navbar/Navbar.tsx:23-25 | the list shows only for a non-empty query with settled, successful, non-empty results, and then shows 1 to 6 leading results |
| Navbar.ShowRouteInjective | src/components/navbar/Navbar.tsx:64 | distinct show ids navigate to distinct routes |
| Navbar.NavbarState.constructor | src/components/navbar/Navbar.tsx:15-17 | the query starts empty and both menus start closed |
| Navbar.NavbarState.InputChanged | src/components/navbar/Navbar.tsx:96-99 | typing sets the query and opens the dropdown |
| Navbar.NavbarState.SearchTriggerClicked | src/components/navbar/Navbar.tsx:55-61 | on mobile it navigates to "/search" and keeps the dropdown flag; otherwise it opens the dropdown |
| Navbar.NavbarState.SelectShow | src/components/navbar/Navbar.tsx:63-66 | selecting navigates to "/show/" + id and closes the dropdown |
| Navbar.NavbarState.CloseDropdown | src/components/navbar/Navbar.tsx:117 | onClose closes the dropdown and nothing else |
| Navbar.NavbarState.SuggestionChosen | src/components/navbar/SearchDropdown.tsx:31-34 | a mousedown runs onSelect(id) and then onClose: it navigates to the show and leaves the dropdown closed |
| Navbar.NavbarState.DocumentMouseDown | src/components/navbar/Navbar.tsx:42-53 | while open, a press outside the search area closes the dropdown; a press inside keeps it open |
| Navbar.NavbarState.LocationChanged | src/components/navbar/Navbar.tsx:36-39 | a location change closes both the mobile menu and the dropdown |
| Navbar.NavbarState.ToggleMobileMenu | src/components/navbar/Navbar.tsx:130 | the toggle flips the mobile menu and changes nothing else |
| Seo.FullTitleNamesBrand | src/components/seo/SEO.tsx:26-28 | every composed title contains "Streamify" |
| Seo.DefaultTitleLacksSuffix | src/components/seo/SEO.tsx:4-27 | no title followed by the brand suffix equals the default title, so the two branches of the title never meet |
| Seo.FullTitleInjective | src/components/seo/SEO.tsx:26-28 | distinct titles give distinct page titles |
| Seo.Head | src/components/seo/SEO.tsx:16-47 | page title, og:title and twitter:title are the full title; og:url and canonical are the final URL; og and twitter share the description and the image |
| Seo.HeadDefaults | src/components/seo/SEO.tsx:17-24 | absent props take the three defaults; a given URL is kept even when empty; with neither URL nor window the URL is "" |
| Home.HasApiKeyIff | src/Component/home/home.tsx:17 | a key counts iff it is set, not whitespace-only and not "demo_key" |
| Home.WarningCases | src/Component/home/home.tsx:115 | the banner shows for an unset, empty, blank or placeholder key |
| Home.WarningIgnoresAccessToken | src/Component/home/home.tsx:16-17 | the banner depends on the API key only, while requests carry "Bearer " + access token, or "Bearer undefined" |
| Home.CarouselsFollowTheirQueries | src/Component/home/home.tsx:118-142 | four carousels render in the order trending, top rated, popular, on the air; each is empty while its own query has no data and shows exactly that query's results otherwise, whatever the other three hold |

## Left out

- Network I/O is not modelled: `fetch`, the Accept and Content-Type headers, and JSON decoding. A response's body arrives already decoded, or as unreadable.
- `Tmdb.TmdbRequest.Settle`: the fetch settling and `res.json()` settling are merged into one step. An abort that lands while the body is being read is treated as an abort before the response. The source clears the 15000 ms timer as soon as the response headers arrive, before `res.json()`, so a slow body read never times out there. The merged step lets `TimerFires` turn such a response into `Transport(Aborted)`: the model allows more aborts than the source, never fewer.
- The rxjs machinery is not modelled. The image helpers are modelled by the value their `map` produces; the one-element Observable around it is left out. The subscriber's closed state is reduced to one `unsubscribed` flag.
- Time is not modelled. The 15000 ms timer is a constant plus a `TimerFires` event, with no clock.
- The 300 ms debounce and `useObservableValue` are timer and subscription plumbing. The debounced string is an input.
- The `URLSearchParams` encoding is library code. It is a parameter of `RequestUrl`.
- `parseInt` of arbitrary text is not modelled. It is a parameter; lemmas that need it assume only that non-empty strings of decimal digits parse to their value.
- react-query is library code and is not modelled: caching, stale-time expiry, de-duplication, retries and refetching. `src/hooks/useHome.ts` holds only keys and constants around it. The stale times are kept as constants.
- Date parsing for the year and the air date is not modelled. Neither is `vote_average.toFixed(1)`: both are float and locale formatting.
- Rendering is not modelled: carousel scroll arithmetic, the scroll listener, mobile detection (`isMobile` is an input), animations and styling.
- The detail page's hook-order problem (hooks called after the early error return) is framework semantics.
- The detail page's SEO title fallback (`show?.name || 'Loading...'`) is not modelled.
- JavaScript numbers are modelled as integers or NaN. Fractional values, precision beyond 2^53 and exponent notation in `toString` are left out. -0 is folded into 0; it has the same truthiness and the same rendering.
- Strings are sequences of Unicode scalar values, while JavaScript lengths and `slice` count UTF-16 code units. An overview with characters outside the Basic Multilingual Plane is cut at a different point.
- `TVShowDetails.seasons` is a required list, as the payload types declare it. The page's guard against a missing list is covered only by the missing-show case.
- `Navbar.NavbarState.SearchTriggerClicked`: the mobile branch is modelled as written. On mobile the input that triggers it is not rendered at all.
