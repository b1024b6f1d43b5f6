/**
 * The metadata API's payloads as the client declares them (src/types/index.ts).
 * Every entity is an immutable snapshot of an upstream response. Nullable
 * media paths are `Option<string>`; the float fields (ratings, popularity)
 * are carried as `real` and never computed with.
 */
module Types {

  datatype Option<+T> = None | Some(value: T)

  datatype TVShow = TVShow(
    id: int,
    name: string,
    overview: string,
    posterPath: Option<string>,
    backdropPath: Option<string>,
    voteAverage: real,
    voteCount: int,
    firstAirDate: string,
    genreIds: seq<int>,
    popularity: real)

  datatype Genre = Genre(id: int, name: string)

  datatype Season = Season(
    id: int,
    name: string,
    overview: string,
    posterPath: Option<string>,
    seasonNumber: int,
    episodeCount: int,
    airDate: string)

  /** A show with its details; `TVShowDetails extends TVShow`. */
  datatype TVShowDetails = TVShowDetails(
    show: TVShow,
    numberOfSeasons: int,
    numberOfEpisodes: int,
    seasons: seq<Season>,
    genres: seq<Genre>,
    status: string,
    tagline: string)

  datatype Episode = Episode(
    id: int,
    name: string,
    overview: string,
    stillPath: Option<string>,
    episodeNumber: int,
    seasonNumber: int,
    airDate: string,
    voteAverage: real,
    runtime: Option<int>)

  /** A page of results. */
  datatype TMDBResponse<T> = TMDBResponse(
    page: int,
    results: seq<T>,
    totalPages: int,
    totalResults: int)

  datatype SeasonDetails = SeasonDetails(
    id: int,
    name: string,
    overview: string,
    posterPath: Option<string>,
    seasonNumber: int,
    episodes: seq<Episode>)

  /**
   * `data?.results || []`: the page's results, or no results while the query
   * has no data. (A results array is an object, so `||` never replaces it.)
   */
  function ResultsOrEmpty<T>(data: Option<TMDBResponse<T>>): seq<T>
  {
    match data
    case None => []
    case Some(response) => response.results
  }
}
