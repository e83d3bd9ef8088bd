/**
 * The random mode's endless stream, as far as it is pure computation:
 * choosing the next result page of each catalog, turning the two discover
 * responses into one shuffled batch of cards, appending a batch to the
 * buffer without repeating a movie already there, reading the current and
 * next card, and the images to warm up ahead of the cursor.
 */
module Stream {
  import opened Wrappers
  import opened Types
  import Tmdb
  import Shuffles

  // --------------------------------------------------------------- pages

  /** Result pages 1..PageCount cover the top 500 of a catalog (20 per page). */
  const PageCount: nat := 25

  /** The pages from `lo` up to PageCount that have not been fetched, in increasing order. */
  function PagesFrom(fetched: set<int>, lo: int): (pages: seq<int>)
    requires 1 <= lo
    ensures forall i :: 0 <= i < |pages| ==> lo <= pages[i] <= PageCount && pages[i] !in fetched
    decreases PageCount + 1 - lo
  {
    if lo > PageCount then []
    else if lo in fetched then PagesFrom(fetched, lo + 1)
    else [lo] + PagesFrom(fetched, lo + 1)
  }

  /** A page is listed exactly when it is in range from `lo` and has not been fetched. */
  lemma {:induction false} PagesFromMembers(fetched: set<int>, lo: int, p: int)
    requires 1 <= lo
    ensures p in PagesFrom(fetched, lo) <==> lo <= p <= PageCount && p !in fetched
    decreases PageCount + 1 - lo
  {
    if lo <= PageCount {
      PagesFromMembers(fetched, lo + 1, p);
    }
  }

  /** The unfetched pages are listed in increasing order, as the filter keeps `allPages`' order. */
  lemma {:induction false} PagesFromIncreasing(fetched: set<int>, lo: int)
    requires 1 <= lo
    ensures forall i, j :: 0 <= i < j < |PagesFrom(fetched, lo)| ==> PagesFrom(fetched, lo)[i] < PagesFrom(fetched, lo)[j]
    decreases PageCount + 1 - lo
  {
    if lo <= PageCount {
      PagesFromIncreasing(fetched, lo + 1);
    }
  }

  /** Every page of the catalog that has not been fetched yet, in increasing order. */
  function AvailablePages(fetched: set<int>): seq<int> {
    PagesFrom(fetched, 1)
  }

  /**
   * The page to fetch next: an unfetched page picked by the draw `r`, or,
   * once all pages have been fetched, any page picked by `r`.
   */
  function NextRandomPage(fetched: set<int>, r: nat): (page: int)
    ensures 1 <= page <= PageCount
    ensures (exists p :: 1 <= p <= PageCount && p !in fetched) ==> page !in fetched
  {
    var available := AvailablePages(fetched);
    if |available| == 0 then
      assert forall p :: 1 <= p <= PageCount ==> p in fetched by {
        forall p | 1 <= p <= PageCount ensures p in fetched {
          PagesFromMembers(fetched, 1, p);
        }
      }
      r % PageCount + 1
    else
      available[r % |available|]
  }

  /** Every page that has not been fetched can be the next one. */
  lemma {:induction false} EveryAvailablePageReachable(fetched: set<int>, p: int)
    requires 1 <= p <= PageCount && p !in fetched
    ensures exists r: nat :: NextRandomPage(fetched, r) == p
  {
    var available := AvailablePages(fetched);
    PagesFromMembers(fetched, 1, p);
    var i :| 0 <= i < |available| && available[i] == p;
    SmallRemainder(i, |available|);
    assert NextRandomPage(fetched, i) == p;
  }

  lemma SmallRemainder(i: nat, n: nat)
    requires i < n
    ensures i % n == i
  {
  }

  /** Once every page has been fetched, the draw starts over on all pages: each is reachable. */
  lemma {:induction false} ExhaustedPagesRestart(fetched: set<int>, p: int)
    requires forall q :: 1 <= q <= PageCount ==> q in fetched
    requires 1 <= p <= PageCount
    ensures NextRandomPage(fetched, p - 1) == p
  {
    NoPageLeft(fetched, 1);
  }

  lemma {:induction false} NoPageLeft(fetched: set<int>, lo: int)
    requires 1 <= lo
    requires forall q :: lo <= q <= PageCount ==> q in fetched
    ensures PagesFrom(fetched, lo) == []
    decreases PageCount + 1 - lo
  {
    if lo <= PageCount {
      NoPageLeft(fetched, lo + 1);
    }
  }

  // ----------------------------------------------------- usable records

  /** The characters JavaScript's `String.prototype.trim` removes: white space and line terminators. */
  predicate IsJsWhitespace(c: char) {
    c == '\t' || c == '\n' || c == '\U{000B}' || c == '\U{000C}' || c == '\r' || c == ' '
    || c == '\U{00A0}' || c == '\U{1680}' || ('\U{2000}' <= c <= '\U{200A}')
    || c == '\U{2028}' || c == '\U{2029}' || c == '\U{202F}' || c == '\U{205F}'
    || c == '\U{3000}' || c == '\U{FEFF}'
  }

  /** `s` without its leading white space. */
  function TrimStart(s: string): (r: string)
    ensures |r| <= |s| && r == s[|s| - |r|..]
    ensures r == [] || !IsJsWhitespace(r[0])
    ensures forall i :: 0 <= i < |s| - |r| ==> IsJsWhitespace(s[i])
  {
    if s != [] && IsJsWhitespace(s[0]) then TrimStart(s[1..]) else s
  }

  /** `s` without its trailing white space. */
  function TrimEnd(s: string): (r: string)
    ensures |r| <= |s| && r == s[..|r|]
    ensures r == [] || !IsJsWhitespace(r[|r| - 1])
    ensures forall i :: |r| <= i < |s| ==> IsJsWhitespace(s[i])
  {
    if s != [] && IsJsWhitespace(s[|s| - 1]) then TrimEnd(s[..|s| - 1]) else s
  }

  /** `s.trim()`. */
  function Trim(s: string): string {
    TrimEnd(TrimStart(s))
  }

  /** Trimming leaves something exactly when the text has a character that is not white space. */
  lemma {:induction false} TrimEmptyIffBlank(s: string)
    ensures |Trim(s)| > 0 <==> exists i :: 0 <= i < |s| && !IsJsWhitespace(s[i])
  {
    var t := TrimStart(s);
    if |Trim(s)| > 0 {
      assert !IsJsWhitespace(t[0]);
      assert t[0] == s[|s| - |t|];
    }
  }

  /** A record is shown only when its overview is present and not blank (`m.overview && m.overview.trim().length > 0`). */
  predicate Usable(m: Tmdb.RawMovie) {
    m.overview.Some? && m.overview.value != "" && |Trim(m.overview.value)| > 0
  }

  /** A record is usable exactly when its overview has a character that is not white space. */
  lemma UsableIffVisibleOverview(m: Tmdb.RawMovie)
    ensures Usable(m) <==> m.overview.Some? && exists i :: 0 <= i < |m.overview.value| && !IsJsWhitespace(m.overview.value[i])
  {
    if m.overview.Some? {
      TrimEmptyIffBlank(m.overview.value);
    }
  }

  /**
   * The card for a record: the overview as description, the poster URL (or
   * the empty text when there is no poster), the rating on a 0-10 scale as a
   * whole percentage rounded down, and the record's id.
   */
  function MapToResult(m: Tmdb.RawMovie): (item: ResultItem)
    ensures item.tmdbId == Some(m.id) && item.title == m.title
    ensures m.overview.Some? ==> item.desc == m.overview.value
    ensures item.image == "" <==> m.posterPath.None? || m.posterPath.value == ""
    ensures item.matchRate as real <= m.voteAverage * 10.0 < item.matchRate as real + 1.0
  {
    ResultItem(m.title, m.overview.GetOr(""), Tmdb.GetImageUrl(m.posterPath).GetOr(""), (m.voteAverage * 10.0).Floor, Some(m.id))
  }

  /** A card's image, when it has one, gives back the record's poster path. */
  lemma CardImageKeepsPoster(m: Tmdb.RawMovie)
    requires MapToResult(m).image != ""
    ensures Tmdb.PosterPathOf(MapToResult(m).image) == m.posterPath
  {
    Tmdb.ImageUrlRoundTrip(m.posterPath);
  }

  /** `movies.filter(usable).map(mapToResult)`. */
  function UsableCards(movies: seq<Tmdb.RawMovie>): (cards: seq<ResultItem>)
    ensures |cards| <= |movies|
    ensures forall k :: 0 <= k < |cards| ==> cards[k].tmdbId.Some?
  {
    if movies == [] then []
    else (if Usable(movies[0]) then [MapToResult(movies[0])] else []) + UsableCards(movies[1..])
  }

  /** A single record gives its card iff it is usable. */
  lemma UsableCardsSingle(m: Tmdb.RawMovie)
    ensures UsableCards([m]) == if Usable(m) then [MapToResult(m)] else []
  {
    assert [m][1..] == [];
  }

  /**
   * Filtering and mapping distribute over concatenation: cards keep the
   * order and multiplicity of their records. With `UsableCardsSingle` this
   * pins `UsableCards` down completely.
   */
  lemma {:induction false} UsableCardsAppend(a: seq<Tmdb.RawMovie>, b: seq<Tmdb.RawMovie>)
    ensures UsableCards(a + b) == UsableCards(a) + UsableCards(b)
  {
    if a == [] {
      assert a + b == b;
    } else {
      assert (a + b)[0] == a[0];
      assert (a + b)[1..] == a[1..] + b;
      UsableCardsAppend(a[1..], b);
    }
  }

  /** The cards of a list of records are exactly the cards of its usable records. */
  lemma {:induction false} UsableCardsMembers(movies: seq<Tmdb.RawMovie>, card: ResultItem)
    ensures card in UsableCards(movies) <==> exists m :: m in movies && Usable(m) && MapToResult(m) == card
  {
    if movies != [] {
      UsableCardsMembers(movies[1..], card);
      assert forall m :: m in movies <==> m == movies[0] || m in movies[1..];
    }
  }

  // ------------------------------------------------------------- batches

  /** The records of a settled discover promise: none when it was rejected. */
  function SettledMovies(s: Tmdb.Settled<seq<Tmdb.RawMovie>>): (movies: seq<Tmdb.RawMovie>)
    ensures s.Rejected? ==> movies == []
    ensures s.Fulfilled? ==> movies == s.value
  {
    if s.Fulfilled? then s.value else []
  }

  /** The general catalog's cards followed by the anime catalog's cards, before shuffling. */
  function Combined(gen: Tmdb.HttpOutcome, ani: Tmdb.HttpOutcome): seq<ResultItem> {
    UsableCards(SettledMovies(Tmdb.DiscoverSettled(Tmdb.General, gen)))
      + UsableCards(SettledMovies(Tmdb.DiscoverSettled(Tmdb.Anime, ani)))
  }

  /**
   * A card is in the batch exactly when it comes from a usable record of
   * either catalog's response; a failed catalog contributes nothing and does
   * not stop the other one.
   */
  lemma CombinedMembers(gen: Tmdb.HttpOutcome, ani: Tmdb.HttpOutcome, card: ResultItem)
    ensures card in Combined(gen, ani) <==>
      (exists m :: m in Tmdb.DiscoverResults(gen) && Usable(m) && MapToResult(m) == card)
      || (exists m :: m in Tmdb.DiscoverResults(ani) && Usable(m) && MapToResult(m) == card)
  {
    UsableCardsMembers(Tmdb.DiscoverResults(gen), card);
    UsableCardsMembers(Tmdb.DiscoverResults(ani), card);
  }

  /** When one catalog's request fails, the batch is the other catalog's cards alone. */
  lemma PartialFailureKeepsOther(gen: Tmdb.HttpOutcome, ani: Tmdb.HttpOutcome)
    ensures gen.Thrown? ==> Combined(gen, ani) == UsableCards(Tmdb.DiscoverResults(ani))
    ensures ani.Thrown? ==> Combined(gen, ani) == UsableCards(Tmdb.DiscoverResults(gen))
  {
    assert UsableCards([]) == [];
  }

  /**
   * Returns a shuffled copy of `s` (`shuffleArray`): for each index i from the
   * last down to 1, swap cells i and j for a draw j in 0..i. The copy is
   * local, so it is a sequence variable here.
   */
  method ShuffleArray<T>(s: seq<T>, draws: seq<nat>) returns (r: seq<T>)
    ensures r == Shuffles.SwapDown(s, 1, draws, 0)
    ensures multiset(r) == multiset(s)
  {
    var newArr := s;
    Shuffles.ProgressStart(s, 1, draws);
    var i := |newArr| - 1;
    while i > 0
      invariant -1 <= i < |newArr| == |s|
      invariant Shuffles.Progress(newArr, i + 1, 1, draws, Shuffles.SwapDown(s, 1, draws, 0))
    {
      var j := Shuffles.Draw(draws, |newArr| - 1 - i, i);
      var next := Shuffles.Swap(newArr, i, j);
      Shuffles.ProgressStep(newArr, i + 1, 1, draws, Shuffles.SwapDown(s, 1, draws, 0), j, next);
      newArr := next;
      i := i - 1;
    }
    Shuffles.ProgressDone(newArr, i + 1, 1, draws, Shuffles.SwapDown(s, 1, draws, 0));
    r := newArr;
    Shuffles.SwapDownPermutes(s, 1, draws, 0);
  }

  /**
   * One batch for the stream once both discover calls have settled
   * (`fetchHybridBatch` after its page choice): the usable cards of both
   * catalogs, shuffled together.
   */
  method BuildBatch(gen: Tmdb.HttpOutcome, ani: Tmdb.HttpOutcome, draws: seq<nat>) returns (batch: seq<ResultItem>)
    ensures batch == Shuffles.SwapDown(Combined(gen, ani), 1, draws, 0)
    ensures multiset(batch) == multiset(Combined(gen, ani))
    ensures forall k :: 0 <= k < |batch| ==> batch[k].tmdbId.Some?
  {
    var genMovies := SettledMovies(Tmdb.DiscoverSettled(Tmdb.General, gen));
    var aniMovies := SettledMovies(Tmdb.DiscoverSettled(Tmdb.Anime, ani));
    var combined := UsableCards(genMovies) + UsableCards(aniMovies);
    batch := ShuffleArray(combined, draws);
    forall k | 0 <= k < |batch| ensures batch[k].tmdbId.Some? {
      assert batch[k] in multiset(combined);
    }
  }

  // ------------------------------------------------------ appending a batch

  /** The identifiers of the cards in `s`. */
  function Ids(s: seq<ResultItem>): (ids: set<Option<int>>)
    ensures forall x :: x in s ==> x.tmdbId in ids
    ensures forall id :: id in ids ==> exists x :: x in s && x.tmdbId == id
  {
    set x | x in s :: x.tmdbId
  }

  /** The cards of `batch` whose identifier is not in `ids`, in batch order. */
  function Fresh(batch: seq<ResultItem>, ids: set<Option<int>>): (added: seq<ResultItem>)
    ensures |added| <= |batch|
    ensures forall x :: x in added <==> x in batch && x.tmdbId !in ids
  {
    if batch == [] then []
    else (if batch[0].tmdbId in ids then [] else [batch[0]]) + Fresh(batch[1..], ids)
  }

  /** The buffer after a batch arrives: the old buffer, then the batch's cards whose identifier it does not hold yet. */
  function AppendUnique(prev: seq<ResultItem>, batch: seq<ResultItem>): (next: seq<ResultItem>)
    ensures |prev| <= |next| <= |prev| + |batch| && next[..|prev|] == prev
    ensures forall x :: x in next[|prev|..] <==> x in batch && x.tmdbId !in Ids(prev)
  {
    prev + Fresh(batch, Ids(prev))
  }

  /** A single card is kept iff its identifier is new. */
  lemma FreshSingle(x: ResultItem, ids: set<Option<int>>)
    ensures Fresh([x], ids) == if x.tmdbId in ids then [] else [x]
  {
    assert [x][1..] == [];
  }

  /**
   * Filtering distributes over concatenation: the kept cards stay in batch
   * order and each occurs as often as in the batch. With `FreshSingle` this
   * pins `Fresh` down completely.
   */
  lemma {:induction false} FreshAppend(a: seq<ResultItem>, b: seq<ResultItem>, ids: set<Option<int>>)
    ensures Fresh(a + b, ids) == Fresh(a, ids) + Fresh(b, ids)
  {
    if a == [] {
      assert a + b == b;
    } else {
      assert (a + b)[0] == a[0];
      assert (a + b)[1..] == a[1..] + b;
      FreshAppend(a[1..], b, ids);
    }
  }

  /** The cards of a batch are added in batch order: a batch split in two adds its first part's cards first. */
  lemma AppendUniqueKeepsBatchOrder(prev: seq<ResultItem>, a: seq<ResultItem>, b: seq<ResultItem>)
    ensures AppendUnique(prev, a + b) == AppendUnique(prev, a) + Fresh(b, Ids(prev))
  {
    FreshAppend(a, b, Ids(prev));
  }

  /** No two cards of `s` share an identifier. */
  ghost predicate UniqueIds(s: seq<ResultItem>) {
    forall i, j :: 0 <= i < j < |s| ==> s[i].tmdbId != s[j].tmdbId
  }

  lemma {:induction false} FreshUnique(batch: seq<ResultItem>, ids: set<Option<int>>)
    requires UniqueIds(batch)
    ensures UniqueIds(Fresh(batch, ids))
  {
    if batch != [] {
      FreshUnique(batch[1..], ids);
      var rest := Fresh(batch[1..], ids);
      forall x | x in rest ensures x.tmdbId != batch[0].tmdbId {
        var k :| 0 <= k < |batch[1..]| && batch[1..][k] == x;
      }
    }
  }

  /** A buffer with no repeated identifier keeps that property when a batch with none is appended. */
  lemma AppendKeepsUnique(prev: seq<ResultItem>, batch: seq<ResultItem>)
    requires UniqueIds(prev) && UniqueIds(batch)
    ensures UniqueIds(AppendUnique(prev, batch))
  {
    FreshUnique(batch, Ids(prev));
    var next := AppendUnique(prev, batch);
    forall i, j | 0 <= i < j < |next| ensures next[i].tmdbId != next[j].tmdbId {
      if i < |prev| && |prev| <= j {
        assert next[j] in next[|prev|..];
        assert next[i] in prev;
      } else if |prev| <= i {
        assert next[i] == next[|prev|..][i - |prev|] && next[j] == next[|prev|..][j - |prev|];
      }
    }
  }

  /** Delivering the same batch twice (an effect that runs twice) adds nothing the second time. */
  lemma AppendTwiceIsAppendOnce(prev: seq<ResultItem>, batch: seq<ResultItem>)
    ensures AppendUnique(AppendUnique(prev, batch), batch) == AppendUnique(prev, batch)
  {
    var once := AppendUnique(prev, batch);
    forall x | x in batch ensures x.tmdbId in Ids(once) {
      if x.tmdbId in Ids(prev) {
        var y :| y in prev && y.tmdbId == x.tmdbId;
        assert y in once by { assert once[..|prev|] == prev; }
      } else {
        assert x in once[|prev|..];
      }
    }
    NothingFresh(batch, Ids(once));
  }

  lemma {:induction false} NothingFresh(batch: seq<ResultItem>, ids: set<Option<int>>)
    requires forall x :: x in batch ==> x.tmdbId in ids
    ensures Fresh(batch, ids) == []
  {
    if batch != [] {
      assert batch[0] in batch;
      NothingFresh(batch[1..], ids);
    }
  }

  /**
   * Only the old buffer is consulted: two cards of one batch that share an
   * identifier (a movie listed by both catalogs) both end up in the buffer.
   */
  lemma InBatchDuplicateSurvives(card: ResultItem)
    ensures !UniqueIds(AppendUnique([], [card, card]))
  {
    var next := AppendUnique([], [card, card]);
    assert next == [card, card];
    assert next[0].tmdbId == next[1].tmdbId;
  }

  // ------------------------------------------------------------- cursor

  /** The card on top: the buffer is read modulo its length, nothing when it is empty. */
  function CurrentItem(buffer: seq<ResultItem>, index: nat): (card: Option<ResultItem>)
    ensures card.None? <==> buffer == []
    ensures card.Some? ==> card.value in buffer
    ensures index < |buffer| ==> card == Some(buffer[index])
  {
    if buffer == [] then None else Some(buffer[index % |buffer|])
  }

  /** The cursor wraps around: one full turn of the buffer shows the same card again. */
  lemma CurrentItemWraps(buffer: seq<ResultItem>, index: nat)
    ensures CurrentItem(buffer, index + |buffer|) == CurrentItem(buffer, index)
  {
    if buffer != [] {
      AddDivisor(index, |buffer|);
    }
  }

  lemma {:induction false} MulAtLeast(k: int, n: int)
    requires n > 0 && k >= 1
    ensures k * n >= n
    decreases k
  {
    if k > 1 {
      MulAtLeast(k - 1, n);
      assert k * n == (k - 1) * n + n;
    }
  }

  /** The remainder is the only r in 0..n-1 with x == q * n + r. */
  lemma ModUnique(x: int, n: int, q: int, r: int)
    requires n > 0 && 0 <= r < n && x == q * n + r
    ensures x % n == r
  {
    var q0, r0 := x / n, x % n;
    assert x == q0 * n + r0 && 0 <= r0 < n;
    var d := q - q0;
    assert d * n == q * n - q0 * n;
    assert d * n == r0 - r;
    if d >= 1 {
      MulAtLeast(d, n);
    } else if d <= -1 {
      MulAtLeast(-d, n);
    }
  }

  /** Adding the divisor leaves the remainder unchanged. */
  lemma AddDivisor(i: nat, n: nat)
    requires n > 0
    ensures (i + n) % n == i % n
  {
    var q, r := i / n, i % n;
    assert i == q * n + r;
    assert (q + 1) * n == q * n + n;
    ModUnique(i + n, n, q + 1, r);
  }

  /** The card underneath, one position further on. */
  function NextItem(buffer: seq<ResultItem>, index: nat): (card: Option<ResultItem>)
    ensures card.None? <==> buffer == []
  {
    if |buffer| > 0 then Some(buffer[(index + 1) % |buffer|]) else None
  }

  /** The card underneath is the one that comes on top after a skip. */
  lemma NextItemIsNextCurrent(buffer: seq<ResultItem>, index: nat)
    ensures NextItem(buffer, index) == CurrentItem(buffer, index + 1)
  {
  }

  /** Appending a batch never changes the card on top while the cursor is inside the old buffer. */
  lemma AppendKeepsCurrent(prev: seq<ResultItem>, batch: seq<ResultItem>, index: nat)
    requires index < |prev|
    ensures CurrentItem(AppendUnique(prev, batch), index) == CurrentItem(prev, index)
  {
  }

  // ------------------------------------------------------------ preloading

  /** The buffer is refilled when fewer than ten cards remain ahead of the cursor and no refill is running. */
  predicate NeedsRefill(buffer: seq<ResultItem>, index: nat, fetching: bool) {
    |buffer| - index < 10 && !fetching
  }

  /** The images of the `n` cards after the cursor, wrapping around the (non-empty) buffer. */
  function UpcomingImages(buffer: seq<ResultItem>, index: nat, n: nat): (urls: seq<string>)
    requires buffer != []
    ensures |urls| == n
    ensures forall k :: 0 <= k < n ==> urls[k] == CurrentItem(buffer, index + k + 1).value.image
  {
    if n == 0 then [] else UpcomingImages(buffer, index, n - 1) + [CurrentItem(buffer, index + n).value.image]
  }

  /** The images of the next five cards after the cursor, wrapping around the buffer; none for an empty buffer. */
  method CollectPreloadUrls(buffer: seq<ResultItem>, index: nat) returns (urls: seq<string>)
    ensures buffer == [] ==> urls == []
    ensures buffer != [] ==> urls == UpcomingImages(buffer, index, 5)
  {
    urls := [];
    for i := 1 to 6
      invariant buffer == [] ==> urls == []
      invariant buffer != [] ==> urls == UpcomingImages(buffer, index, i - 1)
    {
      if |buffer| > 0 {
        var idx := (index + i) % |buffer|;
        urls := urls + [buffer[idx].image];
      }
    }
  }

  /** The images handed to the browser: the empty ones are skipped. */
  function PreloadRequests(urls: seq<string>): (requests: seq<string>)
    ensures forall u :: u in requests <==> u in urls && u != ""
  {
    if urls == [] then [] else (if urls[0] == "" then [] else [urls[0]]) + PreloadRequests(urls[1..])
  }

  /** The images of `batch`'s cards, in order. */
  function Images(batch: seq<ResultItem>): (urls: seq<string>)
    ensures |urls| == |batch|
    ensures forall k :: 0 <= k < |urls| ==> urls[k] == batch[k].image
  {
    if batch == [] then [] else [batch[0].image] + Images(batch[1..])
  }

  /** The images preloaded when a stream first arrives: those of its first five cards. */
  function FirstImages(batch: seq<ResultItem>): (urls: seq<string>)
    ensures |urls| == if |batch| < 5 then |batch| else 5
    ensures forall k :: 0 <= k < |urls| ==> urls[k] == batch[k].image
  {
    Images(if |batch| < 5 then batch else batch[..5])
  }
}
