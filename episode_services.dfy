/**
 * The detail requests (src/services/episode.services.ts): one show, and one
 * season of a show. Neither passes parameters.
 */
module EpisodeServices {
  import opened JsNumbers
  import opened Tmdb

  /** `/tv/${showId}`. */
  function ShowPath(showId: JsNumber): string {
    "/tv/" + ToString(showId)
  }

  /** `/tv/${showId}/season/${season}`. */
  function SeasonPath(showId: JsNumber, season: int): string {
    "/tv/" + ToString(showId) + "/season/" + IntToString(season)
  }

  function ShowDetails(showId: JsNumber): Request {
    Request(ShowPath(showId), [])
  }

  function SeasonDetails(showId: JsNumber, season: int): Request {
    Request(SeasonPath(showId, season), [])
  }

  /** For the same show, the show path is a strict prefix of every one of its season paths. */
  lemma ShowPathPrefixesSeasonPath(showId: JsNumber, season: int)
    ensures ShowPath(showId) < SeasonPath(showId, season)
    ensures SeasonPath(showId, season) == ShowPath(showId) + "/season/" + IntToString(season)
  {
    assert SeasonPath(showId, season) == ShowPath(showId) + ("/season/" + IntToString(season));
  }

  /** Distinct shows have distinct paths. */
  lemma ShowPathInjective(a: JsNumber, b: JsNumber)
    requires ShowPath(a) == ShowPath(b)
    ensures a == b
  {
    assert ToString(a) == ShowPath(a)[4..];
    assert ToString(b) == ShowPath(b)[4..];
    ToStringInjective(a, b);
  }

  /**
   * Distinct (show, season) pairs have distinct season paths: a rendered
   * number has no "/", so the first "/" after "/tv/" ends the show id.
   */
  lemma SeasonPathInjective(a: JsNumber, s: int, b: JsNumber, t: int)
    requires SeasonPath(a, s) == SeasonPath(b, t)
    ensures a == b && s == t
  {
    var p := SeasonPath(a, s);
    var x, y := ToString(a), ToString(b);
    SlashAfterId(p, x, IntToString(s));
    SlashAfterId(p, y, IntToString(t));
    assert |x| == |y|;
    assert x == p[4..4 + |x|] == y;
    ToStringInjective(a, b);
    assert IntToString(s) == p[4 + |x| + 8..] == IntToString(t);
    IntToStringInjective(s, t);
  }

  /** In `"/tv/" + id + "/season/" + n`, the first "/" at or after index 4 is the one after `id`. */
  lemma SlashAfterId(p: string, id: string, n: string)
    requires p == "/tv/" + id + "/season/" + n
    requires forall i | 0 <= i < |id| :: NumeralChar(id[i])
    ensures |p| > 4 + |id| && p[4 + |id|] == '/'
    ensures forall i | 4 <= i < 4 + |id| :: p[i] != '/'
    ensures p[4..4 + |id|] == id && p[4 + |id| + 8..] == n
  {
    forall i | 4 <= i < 4 + |id| ensures p[i] != '/' {
      assert p[i] == id[i - 4];
    }
  }

  /** The endpoints carry no "?", so the request URL can be split back into endpoint and query. */
  lemma EndpointsHaveNoQueryMark(showId: JsNumber, season: int)
    ensures NoQueryMark(ShowPath(showId)) && NoQueryMark(SeasonPath(showId, season))
  {
    var x, n := ToString(showId), IntToString(season);
    forall i | 0 <= i < |ShowPath(showId)| ensures ShowPath(showId)[i] != '?' {
      if i >= 4 { assert ShowPath(showId)[i] == x[i - 4]; }
    }
    var p := SeasonPath(showId, season);
    forall i | 0 <= i < |p| ensures p[i] != '?' {
      if 4 <= i < 4 + |x| {
        assert p[i] == x[i - 4];
      } else if i >= 4 + |x| + 8 {
        assert p[i] == n[i - 4 - |x| - 8];
      }
    }
  }

  /**
   * Neither builder passes parameters, so the request URL ends in a bare "?",
   * and distinct (show, season) pairs are fetched from distinct URLs.
   */
  lemma SeasonUrlsDistinct(baseUrl: string, encode: seq<Param> -> string, a: JsNumber, s: int, b: JsNumber, t: int)
    requires encode([]) == ""
    requires a != b || s != t
    ensures RequestUrl(baseUrl, SeasonDetails(a, s), encode) != RequestUrl(baseUrl, SeasonDetails(b, t), encode)
    ensures RequestUrl(baseUrl, ShowDetails(a), encode) == baseUrl + ShowPath(a) + "?"
    ensures RequestUrl(baseUrl, SeasonDetails(a, s), encode) == baseUrl + SeasonPath(a, s) + "?"
  {
    EndpointsHaveNoQueryMark(a, s);
    EndpointsHaveNoQueryMark(b, t);
    if RequestUrl(baseUrl, SeasonDetails(a, s), encode) == RequestUrl(baseUrl, SeasonDetails(b, t), encode) {
      RequestUrlIdentifiesEndpoint(baseUrl, SeasonDetails(a, s), SeasonDetails(b, t), encode);
      SeasonPathInjective(a, s, b, t);
    }
  }
}
