/**
 * The movie-database client: poster URLs, the guard on discover responses,
 * and the choice of the proxy's base URL. The HTTP exchange itself is an
 * input (`HttpOutcome`).
 */
module Tmdb {
  import opened Wrappers

  const ImageBaseUrl: string := "https://image.tmdb.org/t/p/w500"
  const RemoteApiBaseUrl: string := "https://swappy-20260220.onrender.com"
  const LocalApiBaseUrl: string := "http://localhost:3001"

  /** A movie record as the discover endpoints send it; `voteAverage` is on a 0-10 scale. */
  datatype RawMovie = RawMovie(id: int, title: string, posterPath: Option<string>, overview: Option<string>, voteAverage: real)

  /** The two catalogs the stream mixes. */
  datatype Catalog = General | Anime

  /** The `results` field of a response body: an array of records, or anything else (missing, null, an object). */
  datatype JsonResults = JArray(movies: seq<RawMovie>) | JOther

  /** A response body: a falsy value, or an object carrying a `results` field. */
  datatype ResponseData = Falsy | Object(results: JsonResults)

  /** What the HTTP client produced: a response, or a thrown error (network, non-2xx status, decoding). */
  datatype HttpOutcome = Response(data: ResponseData) | Thrown

  /** How a promise settled, as `Promise.allSettled` reports it. */
  datatype Settled<T> = Fulfilled(value: T) | Rejected

  // ---------------------------------------------------------------- posters

  /** The w500 poster URL for a poster path; no URL for a missing or empty path. */
  function GetImageUrl(path: Option<string>): (url: Option<string>)
    ensures url.None? <==> path.None? || path.value == ""
    ensures url.Some? ==> |url.value| > |ImageBaseUrl| && url.value[..|ImageBaseUrl|] == ImageBaseUrl
  {
    if path.None? || path.value == "" then None else Some(ImageBaseUrl + path.value)
  }

  /** Recovers the poster path from a w500 poster URL. */
  function PosterPathOf(url: string): (path: Option<string>)
    ensures path.Some? <==> |url| > |ImageBaseUrl| && url[..|ImageBaseUrl|] == ImageBaseUrl
  {
    if |url| > |ImageBaseUrl| && url[..|ImageBaseUrl|] == ImageBaseUrl then Some(url[|ImageBaseUrl|..]) else None
  }

  /** Building a poster URL loses nothing: the path can be read back from it. */
  lemma ImageUrlRoundTrip(path: Option<string>)
    requires GetImageUrl(path).Some?
    ensures PosterPathOf(GetImageUrl(path).value) == path
  {
    var url := ImageBaseUrl + path.value;
    assert url[..|ImageBaseUrl|] == ImageBaseUrl;
    assert url[|ImageBaseUrl|..] == path.value;
  }

  /** Distinct non-empty poster paths give distinct URLs. */
  lemma ImageUrlInjective(p: Option<string>, q: Option<string>)
    requires GetImageUrl(p).Some? && GetImageUrl(p) == GetImageUrl(q)
    ensures p == q
  {
    ImageUrlRoundTrip(p);
    ImageUrlRoundTrip(q);
  }

  // ------------------------------------------------------ discover requests

  /** The records a discover call returns: `results` when it is an array, otherwise none. */
  function DiscoverResults(outcome: HttpOutcome): (movies: seq<RawMovie>)
    ensures outcome.Thrown? ==> movies == []
    ensures outcome.Response? && outcome.data.Falsy? ==> movies == []
    ensures outcome.Response? && outcome.data.Object? && outcome.data.results.JOther? ==> movies == []
  {
    match outcome
    case Thrown => []
    case Response(Falsy) => []
    case Response(Object(JArray(movies))) => movies
    case Response(Object(JOther)) => []
  }

  /**
   * How the promise of a discover call (top-rated or anime; both have the
   * same guard) settles: every error is caught, so it never rejects.
   */
  function DiscoverSettled(catalog: Catalog, outcome: HttpOutcome): (s: Settled<seq<RawMovie>>)
    ensures s.Fulfilled?
    ensures s.value != [] ==> outcome.Response? && outcome.data.Object? && outcome.data.results == JArray(s.value)
  {
    Fulfilled(DiscoverResults(outcome))
  }

  /** The records of a discover call, whatever the catalog, are exactly the array the server sent, if any. */
  lemma DiscoverKeepsArray(catalog: Catalog, movies: seq<RawMovie>)
    ensures DiscoverSettled(catalog, Response(Object(JArray(movies)))) == Fulfilled(movies)
  {
  }

  // ------------------------------------------------------------- base URL

  /**
   * The proxy's base URL for the page's hostname (`None` when there is no
   * window): local development only for localhost and 127.0.0.1.
   */
  function GetApiBaseUrl(hostname: Option<string>): (base: string)
    ensures base == LocalApiBaseUrl || base == RemoteApiBaseUrl
    ensures base == LocalApiBaseUrl <==> hostname.None? || hostname.value == "localhost" || hostname.value == "127.0.0.1"
  {
    if hostname.Some? && hostname.value != "localhost" && hostname.value != "127.0.0.1" then RemoteApiBaseUrl
    else LocalApiBaseUrl
  }
}
