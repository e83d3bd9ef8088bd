/**
 * The screen controller: the game's state (which screen, which mode, the
 * select mode's answers, the random mode's stream) and the handlers that
 * change it. Each piece of React state is a field of `Session`; each handler
 * is a method. The two timers the swipe handler arms are explicit: a swipe
 * timer (400 ms) carries the values its callback captured when it was armed,
 * and fires through `SwipeTimerFires`; a reveal timer (1500 ms) fires
 * through `RevealTimerFires`. Randomness, the clock, storage failures and the
 * two discover responses are parameters.
 */
module App {
  import opened Wrappers
  import opened Types
  import Data
  import Tmdb
  import Stream
  import History
  import ImageCache
  import Shuffles

  datatype GameState = Start | Intro | Playing | Matching | ShowingResult

  /**
   * An armed swipe timer: the direction, and the mode, answer path, question
   * index and card on top as the handler saw them when it armed the timer.
   */
  datatype SwipeTimer = SwipeTimer(dir: SwipeDirection, mode: GameMode, path: string, questionIndex: nat, current: Option<ResultItem>)

  /** The answer letter for a swipe in select mode: left 'L', right 'R', a skip decided by the coin. */
  function Answer(dir: SwipeDirection, coin: bool): (c: char)
    ensures c == 'L' || c == 'R'
    ensures dir == Left ==> c == 'L'
    ensures dir == Right ==> c == 'R'
    ensures dir == Up ==> (c == 'L' <==> coin)
  {
    match dir
    case Left => 'L'
    case Right => 'R'
    case Up => if coin then 'L' else 'R'
  }

  /** The history action a random-mode swipe records: right likes, left dislikes, up skips. */
  function RandomAction(dir: SwipeDirection): (action: History.InteractionType)
    ensures action == History.Like <==> dir == Right
    ensures action == History.Dislike <==> dir == Left
    ensures action == History.Skip <==> dir == Up
  {
    match dir
    case Right => History.Like
    case Left => History.Dislike
    case Up => History.Skip
  }

  class Session {
    var gameState: GameState
    var mode: GameMode
    var showHistory: bool
    var path: string
    var questionIndex: nat
    var selectResult: Option<ResultItem>
    var randomMovies: seq<ResultItem>
    var randomMovieIndex: nat
    var selectedMovie: Option<ResultItem>
    var fetchedGenPages: set<int>
    var fetchedAniPages: set<int>
    var isCmFetching: bool
    var direction: Option<SwipeDirection>
    /** Swipe timers armed and not yet fired, oldest first. */
    var pendingSwipes: seq<SwipeTimer>
    /** Reveal timers armed and not yet fired, oldest first, with the mode of the swipe that armed each. */
    var pendingReveals: seq<GameMode>
    const history: History.HistoryManagerService
    const images: ImageCache.ImageCacheService

    /**
     * What the session keeps true: fetched pages are real pages, every
     * streamed card carries its catalog id, and the image cache is
     * consistent.
     */
    ghost predicate Valid()
      reads this, images
    {
      PagesValid() && CardsValid() && images.Valid()
    }

    /** Fetched pages are real pages of the catalogs. */
    ghost predicate PagesValid()
      reads this`fetchedGenPages, this`fetchedAniPages
    {
      && (forall p :: p in fetchedGenPages ==> 1 <= p <= Stream.PageCount)
      && (forall p :: p in fetchedAniPages ==> 1 <= p <= Stream.PageCount)
    }

    /** Every streamed card carries its catalog id. */
    ghost predicate CardsValid()
      reads this`randomMovies
    {
      forall k :: 0 <= k < |randomMovies| ==> randomMovies[k].tmdbId.Some?
    }

    constructor (history: History.HistoryManagerService, images: ImageCache.ImageCacheService)
      requires images.Valid()
      ensures Valid()
      ensures gameState == Start && mode == Select && !showHistory
      ensures path == "" && questionIndex == 0 && selectResult == None
      ensures randomMovies == [] && randomMovieIndex == 0 && selectedMovie == None
      ensures fetchedGenPages == {} && fetchedAniPages == {} && !isCmFetching
      ensures direction == None && pendingSwipes == [] && pendingReveals == []
      ensures this.history == history && this.images == images
    {
      gameState := Start;
      mode := Select;
      showHistory := false;
      path := "";
      questionIndex := 0;
      selectResult := None;
      randomMovies := [];
      randomMovieIndex := 0;
      selectedMovie := None;
      fetchedGenPages := {};
      fetchedAniPages := {};
      isCmFetching := false;
      direction := None;
      pendingSwipes := [];
      pendingReveals := [];
      this.history := history;
      this.images := images;
    }

    /** The card on top in random mode. */
    function CurrentRandomMovie(): Option<ResultItem>
      reads this
    {
      Stream.CurrentItem(randomMovies, randomMovieIndex)
    }

    // ------------------------------------------------------------ stream

    /**
     * Picks the next page of each catalog and records both as fetched before
     * the requests go out (`fetchHybridBatch` up to its `await`): the new
     * sets are the given sets plus the chosen pages. `rGen` and `rAni` are
     * the two draws.
     */
    method ReservePages(gen: set<int>, ani: set<int>, rGen: nat, rAni: nat) returns (genPage: int, aniPage: int)
      requires forall p :: p in gen ==> 1 <= p <= Stream.PageCount
      requires forall p :: p in ani ==> 1 <= p <= Stream.PageCount
      modifies this`fetchedGenPages, this`fetchedAniPages
      ensures PagesValid()
      ensures genPage == Stream.NextRandomPage(gen, rGen) && aniPage == Stream.NextRandomPage(ani, rAni)
      ensures fetchedGenPages == gen + {genPage} && fetchedAniPages == ani + {aniPage}
    {
      genPage := Stream.NextRandomPage(gen, rGen);
      aniPage := Stream.NextRandomPage(ani, rAni);
      fetchedGenPages := gen + {genPage};
      fetchedAniPages := ani + {aniPage};
    }

    /**
     * The buffering effect, run after a render in which the mode, the
     * buffer's length or the cursor changed. In random mode with a non-empty
     * buffer it starts a refill (lock taken, pages reserved) when fewer than
     * ten cards remain and no refill is running, and collects the images of
     * the next five cards (`urls`), of which the non-empty ones are preloaded.
     */
    method BufferEffect(rGen: nat, rAni: nat) returns (refillStarted: bool, urls: seq<string>, preload: seq<string>)
      requires PagesValid()
      modifies this`isCmFetching, this`fetchedGenPages, this`fetchedAniPages
      ensures PagesValid()
      ensures refillStarted <==> mode == Random && randomMovies != [] && Stream.NeedsRefill(randomMovies, randomMovieIndex, old(isCmFetching))
      ensures refillStarted ==> (isCmFetching
        && fetchedGenPages == old(fetchedGenPages) + {Stream.NextRandomPage(old(fetchedGenPages), rGen)}
        && fetchedAniPages == old(fetchedAniPages) + {Stream.NextRandomPage(old(fetchedAniPages), rAni)})
      ensures !refillStarted ==> (isCmFetching == old(isCmFetching)
        && fetchedGenPages == old(fetchedGenPages) && fetchedAniPages == old(fetchedAniPages))
      ensures mode != Random || randomMovies == [] ==> urls == []
      ensures mode == Random && randomMovies != [] ==> urls == Stream.UpcomingImages(randomMovies, randomMovieIndex, 5)
      ensures preload == Stream.PreloadRequests(urls)
    {
      refillStarted := false;
      urls, preload := [], [];
      if mode != Random || |randomMovies| == 0 {
        return;
      }
      refillStarted := StartRefillIfLow(rGen, rAni);
      urls := Stream.CollectPreloadUrls(randomMovies, randomMovieIndex);
      preload := Stream.PreloadRequests(urls);
    }

    /**
     * The refill half of the buffering effect: when fewer than ten cards
     * remain and no refill is running, the lock is taken and a page of each
     * catalog reserved.
     */
    method StartRefillIfLow(rGen: nat, rAni: nat) returns (refillStarted: bool)
      requires PagesValid()
      modifies this`isCmFetching, this`fetchedGenPages, this`fetchedAniPages
      ensures PagesValid()
      ensures refillStarted <==> Stream.NeedsRefill(randomMovies, randomMovieIndex, old(isCmFetching))
      ensures refillStarted ==> (isCmFetching
        && fetchedGenPages == old(fetchedGenPages) + {Stream.NextRandomPage(old(fetchedGenPages), rGen)}
        && fetchedAniPages == old(fetchedAniPages) + {Stream.NextRandomPage(old(fetchedAniPages), rAni)})
      ensures !refillStarted ==> (isCmFetching == old(isCmFetching)
        && fetchedGenPages == old(fetchedGenPages) && fetchedAniPages == old(fetchedAniPages))
    {
      refillStarted := false;
      if |randomMovies| - randomMovieIndex < 10 && !isCmFetching {
        isCmFetching := true;
        var genPage, aniPage := ReservePages(fetchedGenPages, fetchedAniPages, rGen, rAni);
        refillStarted := true;
      }
    }

    /**
     * A refill's requests have settled: the batch built from both responses
     * is appended without the movies the buffer already holds, and the lock
     * is released whatever the outcome.
     */
    method RefillSettled(gen: Tmdb.HttpOutcome, ani: Tmdb.HttpOutcome, draws: seq<nat>)
      requires Valid()
      modifies this`randomMovies, this`isCmFetching
      ensures Valid()
      ensures !isCmFetching
      ensures randomMovies == Stream.AppendUnique(old(randomMovies), Shuffles.SwapDown(Stream.Combined(gen, ani), 1, draws, 0))
      ensures randomMovieIndex < |old(randomMovies)| ==> CurrentRandomMovie() == old(CurrentRandomMovie())
    {
      var mixedMovies := Stream.BuildBatch(gen, ani, draws);
      if |mixedMovies| > 0 {
        var prev := randomMovies;
        randomMovies := Stream.AppendUnique(prev, mixedMovies);
        forall k | 0 <= k < |randomMovies| ensures randomMovies[k].tmdbId.Some? {
          if k >= |prev| {
            assert randomMovies[k] in randomMovies[|prev|..];
          }
        }
        if randomMovieIndex < |prev| {
          Stream.AppendKeepsCurrent(prev, mixedMovies, randomMovieIndex);
        }
      }
      isCmFetching := false;
    }

    /**
     * What the first load of the stream leaves behind, given the buffer
     * before it: the lock released, each catalog's fetched set holding just
     * the page drawn from an empty set, and, when the shuffled batch is not
     * empty, that batch as the buffer (without deduplication) with the
     * images of its first five cards handed over for preloading; an empty
     * batch leaves the buffer as it was and preloads nothing.
     */
    ghost predicate FirstLoadOutcome(rGen: nat, rAni: nat, gen: Tmdb.HttpOutcome, ani: Tmdb.HttpOutcome, draws: seq<nat>,
      before: seq<ResultItem>, preload: seq<string>)
      reads this`isCmFetching, this`fetchedGenPages, this`fetchedAniPages, this`randomMovies
    {
      && !isCmFetching
      && fetchedGenPages == {Stream.NextRandomPage({}, rGen)} && fetchedAniPages == {Stream.NextRandomPage({}, rAni)}
      && BatchOutcome(Shuffles.SwapDown(Stream.Combined(gen, ani), 1, draws, 0), before, preload)
    }

    /** The buffer and the preload list once `batch` has settled as the first batch. */
    ghost predicate BatchOutcome(batch: seq<ResultItem>, before: seq<ResultItem>, preload: seq<string>)
      reads this`randomMovies
    {
      && (batch == [] ==> randomMovies == before && preload == [])
      && (batch != [] ==> randomMovies == batch && preload == Stream.PreloadRequests(Stream.FirstImages(batch)))
    }

    /**
     * The first load of the stream (`handleStartGame` and `handleModeSwitch`
     * when the buffer is empty): pages are reserved from empty sets, then
     * the batch built from the two responses is taken.
     */
    method InitialLoad(rGen: nat, rAni: nat, gen: Tmdb.HttpOutcome, ani: Tmdb.HttpOutcome, draws: seq<nat>)
      returns (preload: seq<string>)
      requires Valid()
      modifies this`isCmFetching, this`fetchedGenPages, this`fetchedAniPages, this`randomMovies
      ensures Valid()
      ensures FirstLoadOutcome(rGen, rAni, gen, ani, draws, old(randomMovies), preload)
    {
      isCmFetching := true;
      var genPage, aniPage := ReservePages({}, {}, rGen, rAni);
      preload := TakeFirstBatch(gen, ani, draws);
      isCmFetching := false;
    }

    /**
     * The first batch has settled: when it is not empty it replaces the
     * buffer as it is, and the images of its first five cards are handed
     * over for preloading.
     */
    method TakeFirstBatch(gen: Tmdb.HttpOutcome, ani: Tmdb.HttpOutcome, draws: seq<nat>) returns (preload: seq<string>)
      requires CardsValid()
      modifies this`randomMovies
      ensures CardsValid()
      ensures BatchOutcome(Shuffles.SwapDown(Stream.Combined(gen, ani), 1, draws, 0), old(randomMovies), preload)
    {
      preload := [];
      var mixedMovies := Stream.BuildBatch(gen, ani, draws);
      if |mixedMovies| > 0 {
        randomMovies := mixedMovies;
        preload := Stream.PreloadRequests(Stream.FirstImages(mixedMovies));
      }
    }

    // ---------------------------------------------------------- handlers

    /**
     * Starting a game in the chosen mode: the stream is loaded first if it is
     * empty and the random mode was chosen; then the random mode's cursor, or
     * the select mode's answers, start over and the intro plays. Nothing
     * else changes (the frame says which fields may).
     */
    method HandleStartGame(selectedMode: GameMode, rGen: nat, rAni: nat, gen: Tmdb.HttpOutcome, ani: Tmdb.HttpOutcome, draws: seq<nat>)
      returns (preload: seq<string>)
      requires Valid()
      modifies this`mode, this`gameState, this`randomMovieIndex, this`path, this`questionIndex, this`selectResult
      modifies this`isCmFetching, this`fetchedGenPages, this`fetchedAniPages, this`randomMovies
      ensures Valid()
      ensures mode == selectedMode && gameState == Intro
      ensures selectedMode == Random ==> (randomMovieIndex == 0
        && path == old(path) && questionIndex == old(questionIndex) && selectResult == old(selectResult))
      ensures selectedMode == Select ==> (randomMovieIndex == old(randomMovieIndex)
        && path == "" && questionIndex == 0 && selectResult == None)
      ensures !(selectedMode == Random && old(randomMovies) == []) ==> (
        randomMovies == old(randomMovies) && isCmFetching == old(isCmFetching) && preload == []
        && fetchedGenPages == old(fetchedGenPages) && fetchedAniPages == old(fetchedAniPages))
      ensures selectedMode == Random && old(randomMovies) == [] ==> FirstLoadOutcome(rGen, rAni, gen, ani, draws, [], preload)
    {
      preload := [];
      if |randomMovies| == 0 && selectedMode == Random {
        preload := InitialLoad(rGen, rAni, gen, ani, draws);
      }
      BeginRound(selectedMode);
    }

    /** The part of starting a game that follows the load: the mode is set, its round starts over, the intro plays. */
    method BeginRound(selectedMode: GameMode)
      modifies this`mode, this`gameState, this`randomMovieIndex, this`path, this`questionIndex, this`selectResult
      ensures mode == selectedMode && gameState == Intro
      ensures selectedMode == Random ==> (randomMovieIndex == 0
        && path == old(path) && questionIndex == old(questionIndex) && selectResult == old(selectResult))
      ensures selectedMode == Select ==> (randomMovieIndex == old(randomMovieIndex)
        && path == "" && questionIndex == 0 && selectResult == None)
    {
      mode := selectedMode;
      if selectedMode == Random {
        randomMovieIndex := 0;
      } else {
        questionIndex := 0;
        path := "";
        selectResult := None;
      }
      gameState := Intro;
    }

    /**
     * Switching mode from the header: nothing happens for the current mode;
     * the stream is loaded first when switching to random mode with an empty
     * buffer.
     */
    method HandleModeSwitch(newMode: GameMode, rGen: nat, rAni: nat, gen: Tmdb.HttpOutcome, ani: Tmdb.HttpOutcome, draws: seq<nat>)
      returns (preload: seq<string>)
      requires Valid()
      modifies this`mode, this`isCmFetching, this`fetchedGenPages, this`fetchedAniPages, this`randomMovies
      ensures Valid()
      ensures mode == newMode
      ensures !(old(mode) != newMode && newMode == Random && old(randomMovies) == []) ==> (
        randomMovies == old(randomMovies) && isCmFetching == old(isCmFetching) && preload == []
        && fetchedGenPages == old(fetchedGenPages) && fetchedAniPages == old(fetchedAniPages))
      ensures old(mode) != newMode && newMode == Random && old(randomMovies) == [] ==> FirstLoadOutcome(rGen, rAni, gen, ani, draws, [], preload)
    {
      preload := [];
      if mode == newMode {
        return;
      }
      if newMode == Random && |randomMovies| == 0 {
        preload := InitialLoad(rGen, rAni, gen, ani, draws);
      }
      mode := newMode;
    }

    /** Opens or closes the history panel. */
    method ToggleHistory()
      modifies this`showHistory
      ensures showHistory == !old(showHistory)
    {
      showHistory := !showHistory;
    }

    /** The intro animation finished: the cards come up. */
    method IntroDone()
      modifies this`gameState
      ensures gameState == Playing
    {
      gameState := Playing;
    }

    /**
     * A swipe (a drag or a button): ignored while an earlier swipe's
     * animation is running; otherwise the direction is shown and the swipe
     * timer is armed with the values the callback captures.
     */
    method HandleSwipe(dir: SwipeDirection)
      modifies this`direction, this`pendingSwipes
      ensures old(direction).Some? ==> direction == old(direction) && pendingSwipes == old(pendingSwipes)
      ensures old(direction).None? ==> (direction == Some(dir)
        && pendingSwipes == old(pendingSwipes) + [SwipeTimer(dir, mode, path, questionIndex, CurrentRandomMovie())])
    {
      if direction.Some? {
        return;
      }
      direction := Some(dir);
      pendingSwipes := pendingSwipes + [SwipeTimer(dir, mode, path, questionIndex, CurrentRandomMovie())];
    }

    /**
     * The oldest swipe timer fires (the 400 ms exit animation is over). In
     * select mode the answer is added to the captured path; the last answer
     * computes the result with the draw `r`, records it as a match, preloads
     * its poster and arms the reveal timer, any other answer moves to the
     * next question. In random mode a right swipe likes the captured card,
     * selects it, preloads its poster and arms the reveal timer; left and up
     * record a dislike or a skip and move to the next card. `coin` decides a
     * skipped question, `now` is the clock, `writeFails` whether the history
     * write throws.
     */
    method SwipeTimerFires(coin: bool, r: nat, now: int, writeFails: bool)
      requires Valid() && pendingSwipes != []
      modifies this`pendingSwipes, this`path, this`questionIndex, this`selectResult, this`selectedMovie
      modifies this`randomMovieIndex, this`gameState, this`pendingReveals, this`direction, history, images`pending
      ensures Valid()
      ensures pendingSwipes == old(pendingSwipes)[1..]
      ensures images.pending >= old(images.pending)
      ensures old(pendingSwipes)[0].mode == Select ==> (SelectSwipeOutcome(old(pendingSwipes)[0], coin, r, now, writeFails,
        old(questionIndex), old(selectResult), old(gameState), old(pendingReveals), old(history.stored))
        && randomMovieIndex == old(randomMovieIndex) && selectedMovie == old(selectedMovie))
      ensures old(pendingSwipes)[0].mode == Random ==> (RandomSwipeOutcome(old(pendingSwipes)[0], now, writeFails,
        old(randomMovieIndex), old(selectedMovie), old(gameState), old(pendingReveals), old(direction), old(history.stored))
        && path == old(path) && questionIndex == old(questionIndex) && selectResult == old(selectResult))
    {
      var t := pendingSwipes[0];
      pendingSwipes := pendingSwipes[1..];
      if t.mode == Select {
        SelectSwipe(t, coin, r, now, writeFails);
      } else {
        RandomSwipe(t, now, writeFails);
      }
    }

    /** The select-mode branch of a firing swipe timer `t`. */
    method SelectSwipe(t: SwipeTimer, coin: bool, r: nat, now: int, writeFails: bool)
      requires Valid()
      modifies this`path, this`questionIndex, this`selectResult, this`gameState, this`pendingReveals, this`direction
      modifies history, images`pending
      ensures Valid()
      ensures images.pending >= old(images.pending)
      ensures SelectSwipeOutcome(t, coin, r, now, writeFails,
        old(questionIndex), old(selectResult), old(gameState), old(pendingReveals), old(history.stored))
    {
      var choice := Answer(t.dir, coin);
      var newPath := t.path + [choice];
      path := newPath;
      if t.questionIndex + 1 >= |Data.Questions| {
        var result := Data.GetResult(newPath, r);
        selectResult := Some(result);
        history.SaveInteraction(Some(result), History.Match, now, writeFails);
        var started := images.Preload([result.title]);
        gameState := Matching;
        pendingReveals := pendingReveals + [Select];
      } else {
        questionIndex := questionIndex + 1;
      }
      direction := None;
    }

    /** The random-mode branch of a firing swipe timer `t`. */
    method RandomSwipe(t: SwipeTimer, now: int, writeFails: bool)
      requires Valid()
      modifies this`selectedMovie, this`randomMovieIndex, this`gameState, this`pendingReveals, this`direction
      modifies history, images`pending
      ensures Valid()
      ensures images.pending >= old(images.pending)
      ensures RandomSwipeOutcome(t, now, writeFails,
        old(randomMovieIndex), old(selectedMovie), old(gameState), old(pendingReveals), old(direction), old(history.stored))
    {
      if t.dir == Right {
        history.SaveInteraction(t.current, History.Like, now, writeFails);
        selectedMovie := t.current;
        if t.current.None? {
          // reading the title of a missing card throws: the callback stops here
          return;
        }
        var started := images.Preload([t.current.value.title]);
        gameState := Matching;
        pendingReveals := pendingReveals + [Random];
        direction := None;
      } else {
        history.SaveInteraction(t.current, RandomAction(t.dir), now, writeFails);
        randomMovieIndex := randomMovieIndex + 1;
        direction := None;
      }
    }

    /**
     * What a select-mode swipe timer leaves behind, given the state before
     * it fired: the captured path plus the answer; on the last question the
     * result for that path, recorded as a match, its poster being fetched
     * (or cached, or the cache in fallback mode) and the reveal armed;
     * otherwise one more answered question.
     */
    ghost predicate SelectSwipeOutcome(t: SwipeTimer, coin: bool, r: nat, now: int, writeFails: bool,
      oldIndex: nat, oldResult: Option<ResultItem>, oldState: GameState, oldReveals: seq<GameMode>,
      oldSlot: Option<seq<History.HistoryEntry>>)
      reads this, history, images
    {
      && path == t.path + [Answer(t.dir, coin)]
      && direction == None
      && (t.questionIndex + 1 >= |Data.Questions| ==>
            && selectResult == Some(Data.GetResult(path, r))
            && history.stored == History.SlotAfterSave(oldSlot, selectResult, History.Match, now, writeFails)
            && (selectResult.value.title in images.cache || selectResult.value.title in images.pending || images.isFallbackMode)
            && gameState == Matching && pendingReveals == oldReveals + [Select] && questionIndex == oldIndex)
      && (t.questionIndex + 1 < |Data.Questions| ==>
            && questionIndex == oldIndex + 1
            && selectResult == oldResult && history.stored == oldSlot
            && gameState == oldState && pendingReveals == oldReveals)
    }

    /**
     * What a random-mode swipe timer leaves behind: the interaction recorded
     * for the captured card; on a right swipe that card selected with the
     * cursor unmoved and, if there was a card, its poster being fetched (or
     * cached, or the cache in fallback mode) and the reveal armed (with no
     * card the callback throws and the direction stays set); on a left or up
     * swipe the cursor one card further.
     */
    ghost predicate RandomSwipeOutcome(t: SwipeTimer, now: int, writeFails: bool,
      oldIndex: nat, oldSelected: Option<ResultItem>, oldState: GameState, oldReveals: seq<GameMode>,
      oldDirection: Option<SwipeDirection>, oldSlot: Option<seq<History.HistoryEntry>>)
      reads this, history, images
    {
      && history.stored == History.SlotAfterSave(oldSlot, t.current, RandomAction(t.dir), now, writeFails)
      && (t.dir == Right ==>
            && selectedMovie == t.current && randomMovieIndex == oldIndex
            && (t.current.Some? ==>
                  && (t.current.value.title in images.cache || t.current.value.title in images.pending || images.isFallbackMode)
                  && gameState == Matching && pendingReveals == oldReveals + [Random] && direction == None)
            && (t.current.None? ==> gameState == oldState && pendingReveals == oldReveals && direction == oldDirection))
      && (t.dir != Right ==>
            && randomMovieIndex == oldIndex + 1 && selectedMovie == oldSelected
            && gameState == oldState && pendingReveals == oldReveals && direction == None)
    }

    /**
     * The oldest reveal timer fires (the 1500 ms matching animation is
     * over): the result is shown; a select-mode reveal also marks the last
     * question as answered.
     */
    method RevealTimerFires()
      requires pendingReveals != []
      modifies this`questionIndex, this`gameState, this`pendingReveals
      ensures pendingReveals == old(pendingReveals)[1..]
      ensures gameState == ShowingResult
      ensures old(pendingReveals)[0] == Select ==> questionIndex == old(questionIndex) + 1
      ensures old(pendingReveals)[0] == Random ==> questionIndex == old(questionIndex)
    {
      var armedBy := pendingReveals[0];
      pendingReveals := pendingReveals[1..];
      if armedBy == Select {
        questionIndex := questionIndex + 1;
      }
      gameState := ShowingResult;
    }

    /**
     * "Try again" on the result screen: select mode starts the questions
     * over; random mode moves to the next card. Either way the cards come
     * back and the direction is cleared.
     */
    method HandleReset()
      modifies this`questionIndex, this`path, this`selectResult, this`randomMovieIndex, this`gameState, this`direction
      ensures gameState == Playing && direction == None
      ensures old(mode) == Select ==> (questionIndex == 0 && path == "" && selectResult == None
        && randomMovieIndex == old(randomMovieIndex))
      ensures old(mode) == Random ==> (randomMovieIndex == old(randomMovieIndex) + 1
        && questionIndex == old(questionIndex) && path == old(path) && selectResult == old(selectResult))
    {
      if mode == Select {
        questionIndex := 0;
        path := "";
        selectResult := None;
        gameState := Playing;
      } else {
        randomMovieIndex := randomMovieIndex + 1;
        gameState := Playing;
      }
      direction := None;
    }

    /** Back to the start screen. */
    method HandleFullReset()
      modifies this`gameState, this`direction
      ensures gameState == Start && direction == None
    {
      gameState := Start;
      direction := None;
    }
  }
}
