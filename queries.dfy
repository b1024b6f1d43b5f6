/**
 * The shape of the options the hooks hand to react-query's `useQuery`: the
 * cache key, the request the query function fetches, the `enabled` gate and
 * the freshness window. Caching, de-duplication and retries belong to the
 * library and are not modelled.
 */
module Queries {
  import opened JsNumbers
  import opened Tmdb

  /** One element of a query key array. */
  datatype KeyPart = Text(text: string) | Number(number: JsNumber)

  datatype QueryOptions = QueryOptions(
    key: seq<KeyPart>,
    request: Request,
    enabled: bool,
    staleTimeMs: nat)
}
