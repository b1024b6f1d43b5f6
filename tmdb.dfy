/**
 * The HTTP client of the metadata API (src/services/tmdb.ts): the image URL
 * resolver, the request URL, and the life of one request from subscription to
 * its single settlement.
 *
 * The configured base URLs are parameters. The query-string encoder
 * (`URLSearchParams`) is a function-typed parameter: the model assumes nothing
 * about it beyond what a lemma states in its own `requires`.
 */
module Tmdb {
  import opened Types
  import opened JsNumbers

  // ---------------------------------------------------------------------------
  // Image URLs (getImageUrl$ / getBackdropUrl$)
  // ---------------------------------------------------------------------------

  /** Every size token either helper accepts. */
  datatype ImageSize = W200 | W300 | W500 | W780 | W1280 | Original

  /** `getImageUrl$` accepts 'w200' | 'w300' | 'w500' | 'w780' | 'original'. */
  type PosterSize = s: ImageSize | s != W1280 witness W500

  /** `getBackdropUrl$` accepts 'w780' | 'w1280' | 'original'. */
  type BackdropSize = s: ImageSize | s == W780 || s == W1280 || s == Original witness W1280

  const DefaultPosterSize: PosterSize := W500
  const DefaultBackdropSize: BackdropSize := W1280

  function SizeToken(size: ImageSize): string {
    match size
    case W200 => "w200"
    case W300 => "w300"
    case W500 => "w500"
    case W780 => "w780"
    case W1280 => "w1280"
    case Original => "original"
  }

  /**
   * The mapping both helpers apply to the path: a falsy path (absent or "")
   * gives no URL; otherwise base, "/", the size token and the path, with no
   * separator added between token and path.
   */
  function ResolveImage(imageBaseUrl: string, path: Option<string>, size: ImageSize): (r: Option<string>)
    ensures r.None? <==> path.None? || path.value == ""
  {
    if path.None? || path.value == "" then None
    else Some(imageBaseUrl + "/" + SizeToken(size) + path.value)
  }

  function ImageUrl(imageBaseUrl: string, path: Option<string>, size: PosterSize): Option<string> {
    ResolveImage(imageBaseUrl, path, size)
  }

  function BackdropUrl(imageBaseUrl: string, path: Option<string>, size: BackdropSize): Option<string> {
    ResolveImage(imageBaseUrl, path, size)
  }

  /** No path, or the empty path, resolves to no URL whatever the size. */
  lemma FalsyPathHasNoUrl(imageBaseUrl: string, size: PosterSize, backdropSize: BackdropSize)
    ensures ImageUrl(imageBaseUrl, None, size).None? && ImageUrl(imageBaseUrl, Some(""), size).None?
    ensures BackdropUrl(imageBaseUrl, None, backdropSize).None? && BackdropUrl(imageBaseUrl, Some(""), backdropSize).None?
  {
  }

  /** With the default sizes, a poster is resolved at w500 and a backdrop at w1280. */
  lemma DefaultSizes(imageBaseUrl: string, path: string)
    requires path != ""
    ensures ImageUrl(imageBaseUrl, Some(path), DefaultPosterSize) == Some(imageBaseUrl + "/w500" + path)
    ensures BackdropUrl(imageBaseUrl, Some(path), DefaultBackdropSize) == Some(imageBaseUrl + "/w1280" + path)
  {
    assert imageBaseUrl + "/" + "w500" + path == imageBaseUrl + "/w500" + path;
    assert imageBaseUrl + "/" + "w1280" + path == imageBaseUrl + "/w1280" + path;
  }

  /** The token is glued to the path: a path without a leading "/" runs into it. */
  lemma NoSeparatorBeforePath(imageBaseUrl: string)
    ensures ImageUrl(imageBaseUrl, Some("abc.jpg"), W300) == Some(imageBaseUrl + "/w300abc.jpg")
  {
    assert imageBaseUrl + "/" + "w300" + "abc.jpg" == imageBaseUrl + "/w300abc.jpg";
  }

  /** On the sizes both helpers accept, the backdrop helper and the poster helper agree. */
  lemma BackdropAgreesWithPoster(imageBaseUrl: string, path: Option<string>, size: ImageSize)
    requires size == W780 || size == Original
    ensures BackdropUrl(imageBaseUrl, path, size) == ImageUrl(imageBaseUrl, path, size)
  {
  }

  /**
   * A resolved URL identifies both its size and its path: distinct tokens
   * already differ in their first two characters.
   */
  lemma ResolveImageInjective(imageBaseUrl: string, p1: Option<string>, s1: ImageSize, p2: Option<string>, s2: ImageSize)
    requires ResolveImage(imageBaseUrl, p1, s1) == ResolveImage(imageBaseUrl, p2, s2)
    requires ResolveImage(imageBaseUrl, p1, s1).Some?
    ensures s1 == s2 && p1 == p2
  {
    var u := ResolveImage(imageBaseUrl, p1, s1).value;
    var k := |imageBaseUrl| + 1;
    var t1, t2 := SizeToken(s1), SizeToken(s2);
    assert u == imageBaseUrl + "/" + t1 + p1.value;
    assert u == imageBaseUrl + "/" + t2 + p2.value;
    assert u[k] == t1[0] && u[k + 1] == t1[1];
    assert u[k] == t2[0] && u[k + 1] == t2[1];
    assert t1 == t2;
    assert p1.value == u[k + |t1|..];
  }

  // ---------------------------------------------------------------------------
  // Requests (fetchFromTMDB$)
  // ---------------------------------------------------------------------------

  /** One entry of the `Record<string, string>` of query parameters, in insertion order. */
  datatype Param = Param(key: string, value: string)

  /** What a service hands to `fetchFromTMDB$`: an endpoint path and its parameters. */
  datatype Request = Request(endpoint: string, params: seq<Param>)

  function ParamKeys(params: seq<Param>): (keys: seq<string>)
    ensures |keys| == |params|
    ensures forall i | 0 <= i < |params| :: keys[i] == params[i].key
  {
    if params == [] then [] else [params[0].key] + ParamKeys(params[1..])
  }

  /** `${BASE_URL}${endpoint}?${new URLSearchParams(params)}`: the "?" is always there. */
  function RequestUrl(baseUrl: string, request: Request, encode: seq<Param> -> string): string {
    baseUrl + request.endpoint + "?" + encode(request.params)
  }

  /**
   * The two settings the client reads from its environment: the key the home
   * page checks, and the access token every request is authenticated with.
   * None is an unset variable.
   */
  datatype Environment = Environment(apiKey: Option<string>, accessToken: Option<string>)

  /** The `Authorization` header: `Bearer ${BEARER_TOKEN}`; an unset token is interpolated as "undefined". */
  function AuthorizationHeader(env: Environment): string {
    "Bearer " + (if env.accessToken.Some? then env.accessToken.value else "undefined")
  }

  predicate NoQueryMark(s: string) {
    forall i | 0 <= i < |s| :: s[i] != '?'
  }

  /**
   * A request sent without parameters ends in the bare "?" (URLSearchParams
   * of an empty record encodes to "").
   */
  lemma UrlWithoutParamsEndsInQueryMark(baseUrl: string, endpoint: string, encode: seq<Param> -> string)
    requires encode([]) == ""
    ensures var url := RequestUrl(baseUrl, Request(endpoint, []), encode);
      |url| == |baseUrl| + |endpoint| + 1 && url[|url| - 1] == '?' && url[..|url| - 1] == baseUrl + endpoint
  {
  }

  /**
   * The first "?" after the base URL ends the endpoint, so two requests to
   * endpoints without "?" that produce the same URL have the same endpoint.
   */
  lemma RequestUrlIdentifiesEndpoint(baseUrl: string, r1: Request, r2: Request, encode: seq<Param> -> string)
    requires NoQueryMark(r1.endpoint) && NoQueryMark(r2.endpoint)
    requires RequestUrl(baseUrl, r1, encode) == RequestUrl(baseUrl, r2, encode)
    ensures r1.endpoint == r2.endpoint
  {
    var u := RequestUrl(baseUrl, r1, encode);
    var b := |baseUrl|;
    FirstQueryMark(u, baseUrl, r1.endpoint, encode(r1.params));
    FirstQueryMark(u, baseUrl, r2.endpoint, encode(r2.params));
    assert |r1.endpoint| == |r2.endpoint|;
    assert r1.endpoint == u[b..b + |r1.endpoint|];
  }

  /** In `base + e + "?" + rest` with no "?" in `e`, the first "?" after `base` closes `e`. */
  lemma FirstQueryMark(u: string, baseUrl: string, e: string, rest: string)
    requires NoQueryMark(e) && u == baseUrl + e + "?" + rest
    ensures |u| > |baseUrl| + |e| && u[|baseUrl| + |e|] == '?'
    ensures forall i | |baseUrl| <= i < |baseUrl| + |e| :: u[i] != '?'
    ensures u[|baseUrl|..|baseUrl| + |e|] == e
  {
    forall i | |baseUrl| <= i < |baseUrl| + |e| ensures u[i] != '?' {
      assert u[i] == e[i - |baseUrl|];
    }
  }

  /** The abort timer `fetchFromTMDB$` arms for every request. */
  const RequestTimeoutMs := 15000

  /** Why `fetch` rejected: a transport failure, or the AbortController fired. */
  datatype TransportFailure = NetworkFailure | Aborted

  /**
   * How the platform settles one request: a response with its status and its
   * body (None when `res.json()` fails), or a rejection.
   */
  datatype FetchSettlement<T> = Responded(status: int, body: Option<T>) | Rejected(cause: TransportFailure)

  /** What the subscriber's error carries. */
  datatype RequestError = HttpError(status: int) | UnreadableBody | Transport(cause: TransportFailure)

  datatype Outcome<T> = Emitted(value: T) | Failed(error: RequestError)

  /** `Response.ok`: a status in the range 200-299. */
  predicate IsOkStatus(status: int) {
    200 <= status <= 299
  }

  /**
   * The outcome the `.then`/`.catch` chain gives a settlement. The status is
   * checked before the body is read, so a non-ok response is an HTTP error
   * whatever its body.
   */
  function Classify<T>(settlement: FetchSettlement<T>): (o: Outcome<T>)
    ensures o.Emitted? <==> settlement.Responded? && IsOkStatus(settlement.status) && settlement.body.Some?
    ensures o.Emitted? ==> o.value == settlement.body.value
    ensures settlement.Responded? && !IsOkStatus(settlement.status) ==> o == Failed(HttpError(settlement.status))
    ensures settlement.Rejected? ==> o == Failed(Transport(settlement.cause))
  {
    match settlement
    case Rejected(cause) => Failed(Transport(cause))
    case Responded(status, body) =>
      if !IsOkStatus(status) then Failed(HttpError(status))
      else if body.None? then Failed(UnreadableBody)
      else Emitted(body.value)
  }

  /** The message of the error thrown for a non-ok status: `TMDB Error: ${res.status}`. */
  function HttpErrorMessage(status: int): string {
    "TMDB Error: " + IntToString(status)
  }

  /** The error message identifies the status. */
  lemma HttpErrorMessageInjective(s1: int, s2: int)
    requires HttpErrorMessage(s1) == HttpErrorMessage(s2)
    ensures s1 == s2
  {
    var prefix := "TMDB Error: ";
    assert IntToString(s1) == HttpErrorMessage(s1)[|prefix|..];
    assert IntToString(s2) == HttpErrorMessage(s2)[|prefix|..];
    IntToStringInjective(s1, s2);
  }

  /**
   * One subscription to `fetchFromTMDB$(endpoint, params)`: the request URL,
   * the abort timer, the abort signal, and what the subscriber has received.
   */
  class TmdbRequest<T> {
    const url: string
    const timeoutMs: int
    var timerPending: bool
    var aborted: bool
    var unsubscribed: bool
    var settled: bool
    var emitted: seq<T>
    var completed: bool
    var error: Option<RequestError>

    /**
     * At most one value, and it comes with completion; completion and error
     * exclude each other; nothing is delivered before the fetch settles; and
     * once it has settled the timer is no longer pending; a closed subscriber
     * has run its teardown, so the controller has aborted.
     */
    ghost predicate Valid()
      reads this
    {
      && |emitted| <= 1
      && (completed <==> |emitted| == 1)
      && !(completed && error.Some?)
      && (settled ==> !timerPending)
      && (!settled ==> emitted == [] && error.None?)
      && (unsubscribed ==> aborted)
    }

    /** Subscribing builds the URL, arms the 15000 ms timer and starts the fetch. */
    constructor (baseUrl: string, request: Request, encode: seq<Param> -> string)
      ensures Valid()
      ensures url == RequestUrl(baseUrl, request, encode) && timeoutMs == RequestTimeoutMs
      ensures timerPending && !aborted && !unsubscribed && !settled
    {
      url := RequestUrl(baseUrl, request, encode);
      timeoutMs := RequestTimeoutMs;
      timerPending := true;
      aborted := false;
      unsubscribed := false;
      settled := false;
      emitted := [];
      completed := false;
      error := None;
    }

    /** The timer elapses before the response arrives: the controller aborts. */
    method TimerFires()
      requires Valid() && timerPending
      modifies this
      ensures Valid()
      ensures aborted && !timerPending && !settled
      ensures unsubscribed == old(unsubscribed) && emitted == old(emitted)
      ensures completed == old(completed) && error == old(error)
    {
      aborted := true;
      timerPending := false;
    }

    /** The teardown `() => controller.abort()`; the subscriber accepts nothing more. */
    method Unsubscribe()
      requires Valid()
      modifies this
      ensures Valid()
      ensures aborted && unsubscribed
      ensures timerPending == old(timerPending) && settled == old(settled)
      ensures emitted == old(emitted) && completed == old(completed) && error == old(error)
    {
      aborted := true;
      unsubscribed := true;
    }

    /**
     * The fetch settles (an aborted fetch can only reject with AbortError).
     * Both the success and the failure path clear the timer; a live
     * subscriber then receives one value and completion, or the error, and
     * either closes it: its teardown aborts the controller (`firstValueFrom`
     * unsubscribes on the value itself, with the same effect).
     */
    method Settle(settlement: FetchSettlement<T>)
      requires Valid() && !settled
      requires aborted ==> settlement == Rejected(Aborted)
      modifies this
      ensures Valid()
      ensures settled && !timerPending
      ensures aborted && unsubscribed
      ensures old(unsubscribed) ==> emitted == [] && !completed && error.None?
      ensures !old(unsubscribed) ==>
        match Classify(settlement)
        case Emitted(v) => emitted == [v] && completed && error.None?
        case Failed(e) => emitted == [] && !completed && error == Some(e)
    {
      timerPending := false;
      settled := true;
      if !unsubscribed {
        unsubscribed := true;
        aborted := true;
        match Classify(settlement)
        case Emitted(v) =>
          emitted := [v];
          completed := true;
        case Failed(e) =>
          error := Some(e);
      }
    }
  }
}
