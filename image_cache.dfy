/**
 * The poster cache: a title-to-URL cache, the set of titles whose lookup is
 * in flight, per-title listener lists and a sticky fallback flag (set when
 * no API key is configured or the search API answers 429).
 *
 * A lookup (`getUrl`) is two steps, because it awaits the network: the
 * synchronous start (`GetUrlStart`) and the continuation once the search
 * outcome is known (`GetUrlFinish`). Listener callbacks are identified by
 * numbers; every call of a callback is appended to `log`.
 */
module ImageCache {
  import opened Wrappers

  const PosterBaseUrl: string := "https://image.tmdb.org/t/p/w780"

  type CallbackId = nat

  /** One call of a listener callback with the URL it was given (`None` for null). */
  datatype Notification = Notification(callback: CallbackId, url: Option<string>)

  /**
   * The outcome of a poster search: status 429; an ok response, with the
   * poster path of its first result if there is one; or anything else
   * (another status, a network or decoding error).
   */
  datatype SearchOutcome = RateLimited | Found(posterPath: Option<string>) | Failed

  /** What the synchronous start of a lookup decides. */
  datatype Lookup = Cached(url: string) | Declined | Requested

  predicate IsPosterUrl(url: string) {
    |url| > |PosterBaseUrl| && url[..|PosterBaseUrl|] == PosterBaseUrl
  }

  /** The URL a search outcome yields: only an ok response with a non-empty poster path gives one. */
  function PosterUrl(outcome: SearchOutcome): (url: Option<string>)
    ensures url.Some? <==> outcome.Found? && outcome.posterPath.Some? && outcome.posterPath.value != ""
    ensures url.Some? ==> IsPosterUrl(url.value) && url.value[|PosterBaseUrl|..] == outcome.posterPath.value
  {
    if outcome.Found? && outcome.posterPath.Some? && outcome.posterPath.value != "" then
      var url := PosterBaseUrl + outcome.posterPath.value;
      assert url[..|PosterBaseUrl|] == PosterBaseUrl && url[|PosterBaseUrl|..] == outcome.posterPath.value;
      Some(url)
    else None
  }

  /** The calls made when every callback of `callbacks` is given `url`, in list order. */
  function Notifications(callbacks: seq<CallbackId>, url: Option<string>): (calls: seq<Notification>)
    ensures |calls| == |callbacks|
    ensures forall k :: 0 <= k < |calls| ==> calls[k] == Notification(callbacks[k], url)
  {
    seq(|callbacks|, k requires 0 <= k < |callbacks| => Notification(callbacks[k], url))
  }

  /** `callbacks` without any occurrence of `cb`, the rest in order. */
  function Without(callbacks: seq<CallbackId>, cb: CallbackId): (rest: seq<CallbackId>)
    ensures forall x :: x in rest <==> x in callbacks && x != cb
    ensures |rest| <= |callbacks|
  {
    if callbacks == [] then []
    else if callbacks[0] == cb then Without(callbacks[1..], cb)
    else [callbacks[0]] + Without(callbacks[1..], cb)
  }

  /** A single callback is kept iff it is not the removed one. */
  lemma WithoutSingle(x: CallbackId, cb: CallbackId)
    ensures Without([x], cb) == if x == cb then [] else [x]
  {
    assert [x][1..] == [];
  }

  /**
   * Removal distributes over concatenation: the other callbacks keep their
   * order and repeats. With `WithoutSingle` this pins `Without` down completely.
   */
  lemma {:induction false} WithoutAppend(a: seq<CallbackId>, b: seq<CallbackId>, cb: CallbackId)
    ensures Without(a + b, cb) == Without(a, cb) + Without(b, cb)
  {
    if a == [] {
      assert a + b == b;
    } else {
      assert (a + b)[0] == a[0];
      assert (a + b)[1..] == a[1..] + b;
      WithoutAppend(a[1..], b, cb);
    }
  }

  class ImageCacheService {
    var cache: map<string, string>
    var pending: set<string>
    var listeners: map<string, seq<CallbackId>>
    var isFallbackMode: bool
    var log: seq<Notification>

    /** Cached URLs are w780 poster URLs, and no cached title is still pending. */
    ghost predicate Valid()
      reads this
    {
      (forall t :: t in cache ==> IsPosterUrl(cache[t])) && pending !! cache.Keys
    }

    /** A fresh service; without an API key it starts in fallback mode. */
    constructor (apiKeyPresent: bool)
      ensures Valid()
      ensures cache == map[] && pending == {} && listeners == map[] && log == []
      ensures isFallbackMode == !apiKeyPresent
    {
      cache := map[];
      pending := {};
      listeners := map[];
      isFallbackMode := !apiKeyPresent;
      log := [];
    }

    /** The callbacks registered for `title`. */
    function ListenersOf(title: string): seq<CallbackId>
      reads this
    {
      if title in listeners then listeners[title] else []
    }

    /** Whether a URL for `title` is in memory. */
    function Has(title: string): (cached: bool)
      reads this
      ensures cached <==> title in cache
    {
      title in cache
    }

    /** The cached URL for `title`, if any; the `|| null` of the source never drops a cached URL. */
    function GetSync(title: string): (url: Option<string>)
      reads this
      requires Valid()
      ensures url.Some? <==> title in cache
      ensures url.Some? ==> url.value == cache[title] && IsPosterUrl(url.value)
    {
      if title in cache && cache[title] != "" then Some(cache[title]) else None
    }

    /**
     * The synchronous start of `getUrl`: answer from the cache, decline in
     * fallback mode or while a lookup of the title is in flight, otherwise
     * mark the title pending (the search request goes out).
     */
    method GetUrlStart(title: string) returns (r: Lookup)
      requires Valid()
      modifies this`pending
      ensures Valid()
      ensures title in cache ==> r == Cached(cache[title]) && pending == old(pending)
      ensures title !in cache && (isFallbackMode || title in old(pending)) ==> r == Declined && pending == old(pending)
      ensures title !in cache && !isFallbackMode && title !in old(pending) ==>
        r == Requested && pending == old(pending) + {title}
    {
      if title in cache {
        return Cached(cache[title]);
      }
      if isFallbackMode {
        return Declined;
      }
      if title in pending {
        return Declined;
      }
      pending := pending + {title};
      r := Requested;
    }

    /**
     * The continuation of `getUrl` once the search outcome is in: a 429
     * switches to fallback mode for good; a poster path is cached as a w780
     * URL and announced; every other outcome announces null. In all cases
     * the title stops being pending.
     */
    method GetUrlFinish(title: string, outcome: SearchOutcome) returns (url: Option<string>)
      requires Valid() && title in pending
      modifies this`cache, this`pending, this`isFallbackMode, this`log
      ensures Valid()
      ensures url == PosterUrl(outcome)
      ensures pending == old(pending) - {title}
      ensures isFallbackMode == (old(isFallbackMode) || outcome.RateLimited?)
      ensures url.Some? ==> cache == old(cache)[title := url.value]
      ensures url.None? ==> cache == old(cache)
      ensures forall t :: t in old(cache) ==> t in cache && cache[t] == old(cache)[t]
      ensures log == old(log) + Notifications(ListenersOf(title), url)
    {
      if outcome.RateLimited? {
        isFallbackMode := true;
      } else if outcome.Found? && outcome.posterPath.Some? && outcome.posterPath.value != "" {
        var u := PosterBaseUrl + outcome.posterPath.value;
        assert u[..|PosterBaseUrl|] == PosterBaseUrl;
        cache := cache[title := u];
        Notify(title, Some(u));
        pending := pending - {title};
        return Some(u);
      }
      pending := pending - {title};
      Notify(title, None);
      url := None;
    }

    /** Calls every listener of `title` with `url`, in registration order. */
    method Notify(title: string, url: Option<string>)
      modifies this`log
      ensures log == old(log) + Notifications(ListenersOf(title), url)
    {
      var callbacks := ListenersOf(title);
      var i := 0;
      while i < |callbacks|
        invariant 0 <= i <= |callbacks|
        invariant log == old(log) + Notifications(callbacks[..i], url)
      {
        log := log + [Notification(callbacks[i], url)];
        i := i + 1;
      }
      assert callbacks[..i] == callbacks;
    }

    /**
     * Registers `cb` for `title`. A cached URL is handed to `cb` at once;
     * otherwise a lookup is started (`started` says whether it went out).
     */
    method Subscribe(title: string, cb: CallbackId) returns (started: bool)
      requires Valid()
      modifies this`listeners, this`log, this`pending
      ensures Valid()
      ensures listeners == old(listeners)[title := old(ListenersOf(title)) + [cb]]
      ensures title in cache ==> log == old(log) + [Notification(cb, Some(cache[title]))] && !started && pending == old(pending)
      ensures title !in cache ==> log == old(log)
      ensures title !in cache ==> (started <==> !isFallbackMode && title !in old(pending))
      ensures title !in cache ==> pending == old(pending) + (if started then {title} else {})
    {
      listeners := listeners[title := ListenersOf(title) + [cb]];
      if title in cache {
        log := log + [Notification(cb, Some(cache[title]))];
        started := false;
      } else {
        var r := GetUrlStart(title);
        started := r == Requested;
      }
    }

    /** Removes every registration of `cb` for `title`; other titles are untouched. */
    method Unsubscribe(title: string, cb: CallbackId)
      modifies this`listeners
      ensures title in old(listeners) ==> listeners == old(listeners)[title := Without(old(listeners)[title], cb)]
      ensures title !in old(listeners) ==> listeners == old(listeners)
      ensures cb !in ListenersOf(title)
    {
      if title in listeners {
        listeners := listeners[title := Without(listeners[title], cb)];
      }
    }

    /**
     * Starts a lookup for each listed title that is neither cached nor
     * pending; nothing at all in fallback mode. `started` lists the titles
     * whose lookup went out, in list order.
     */
    method Preload(titles: seq<string>) returns (started: seq<string>)
      requires Valid()
      modifies this`pending
      ensures Valid()
      ensures isFallbackMode ==> started == [] && pending == old(pending)
      ensures forall t :: t in started <==> !isFallbackMode && t in titles && t !in cache && t !in old(pending)
      ensures pending == old(pending) + set t | t in started
    {
      started := [];
      if isFallbackMode {
        return;
      }
      var i := 0;
      while i < |titles|
        invariant 0 <= i <= |titles|
        invariant Valid()
        invariant forall t :: t in started <==> t in titles[..i] && t !in cache && t !in old(pending)
        invariant pending == old(pending) + set t | t in started
      {
        var t := titles[i];
        if t !in cache && t !in pending {
          var r := GetUrlStart(t);
          started := started + [t];
        }
        assert titles[..i + 1] == titles[..i] + [t];
        i := i + 1;
      }
      assert titles[..i] == titles;
    }
  }
}
