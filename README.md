# Swipe movie picker: a verified model of its core

The application lets a user choose a movie by swiping cards. There are two
modes:

- **Select mode** asks six left/right questions. The answer path picks one
  of twenty-four five-letter categories of a fixed decision table, and the
  popularity answer picks which half of that category's pool of eight
  movies is used.
- **Random mode** streams cards from two movie-database catalogs (a general
  one and an anime one). Each catalog is fetched one random result page at a
  time, and the two responses are mixed and shuffled into one batch. A batch
  is appended to the buffer without repeating a movie the buffer already
  holds, and a refill starts when fewer than ten cards remain.

Likes, dislikes, skips and matches are recorded in a ten-entry history in
local storage. Posters are looked up through a title-to-URL cache that has a
sticky fallback mode.

The project models:

- the screen controller, as a class whose fields are the React state and
  whose methods are the handlers (`app.dfy`);
- the pure parts of the random stream (`stream.dfy`);
- the decision table, `getResult`, `shuffle` and `getAllMovies`
  (`data.dfy`);
- the swap-down shuffle that both shuffles share (`shuffles.dfy`);
- the history service (`history.dfy`) and the poster cache
  (`image_cache.dfy`);
- the movie-database client's pure parts (`tmdb.dfy`);
- the card's drag-end rule (`card.dfy`).

Inputs the program gets from outside are parameters of the model:

- `draws: seq<nat>` (and single draws `r`, `coin`) stand for the random
  numbers;
- `now` stands for the clock;
- `writeFails` says whether the storage write throws;
- `HttpOutcome` values stand for the two discover responses, and
  `SearchOutcome` values for the poster search responses.

Each timer is an explicit queue entry that the environment fires. The swipe
timer carries the values its callback captured when it was armed.

Behaviour of the code that the proofs make explicit:

- **Deduplication is not global.** A batch is filtered against the old
  buffer only (`Stream.InBatchDuplicateSurvives`), and the first batch is
  not filtered at all. So the buffer holds unique identifiers only while
  each batch does (`Stream.AppendKeepsUnique`).
- **Anime "Deep Dive" paths fall back.** The header comment of `data.ts`
  counts 64 paths over full pools. The table has no category whose key
  starts with "LR" (anime, Deep Dive). Every such path therefore draws from
  the "LLLLL" pool (`Data.AnimeDeepDiveFallsBack`).
- **A right swipe on an empty buffer throws.** The like is not recorded:
  the history service fails to read the missing card's title and swallows
  that error itself. The selection is set to the missing card. Then the
  poster preload reads the missing card's title and throws, which ends the
  swipe timer's callback. The screen stays on the cards and the swipe
  direction stays set, so further swipes are ignored
  (`App.Session.RandomSwipeOutcome`).

## Model

| member | source | states |
|---|---|---|
| `Shuffles.Swap` | App.tsx:64 | The destructuring swap exchanges the two cells, keeps every other cell, and is a permutation. |
| `Shuffles.Draw` | App.tsx:63 | A draw used for index i lies in 0..i. |
| `Shuffles.SwapDown` | App.tsx:62-66 | The swap-down loop keeps the length of the sequence. |
| `Shuffles.ProgressStep` | data.ts:151-156 | One loop iteration, which swaps cell c-1 with its draw, moves the loop invariant from c to c-1. |
| `Shuffles.SwapDownPermutes` | data.ts:151-156 | Shuffling is a permutation: the result has the same multiset of elements. |
| `Shuffles.SwapDownFloorZeroIsFloorOne` | data.ts:151-156 | The `data.ts` loop, which runs down to index 0, and the `App.tsx` loop, which stops at 1, give the same result for the same draws. |
| `Shuffles.LastCellReachable` | App.tsx:62-66 | Any element can end up in the last cell for some draws. |
| `Tmdb.GetImageUrl` | tmdb.ts:29-32 | No URL for a missing or empty poster path; otherwise the w500 base URL followed by the path. |
| `Tmdb.PosterPathOf` | tmdb.ts:29-32 | A path is recovered exactly from URLs that start with the w500 base URL. |
| `Tmdb.ImageUrlRoundTrip` | tmdb.ts:29-32 | The poster path can be read back from the URL built for it. |
| `Tmdb.ImageUrlInjective` | tmdb.ts:29-32 | Distinct poster paths give distinct URLs. |
| `Tmdb.DiscoverResults` | tmdb.ts:90-107 | A thrown request, a falsy body, or a `results` field that is not an array all yield no records. |
| `Tmdb.DiscoverSettled` | tmdb.ts:110-127 | A discover promise always fulfils. Its records are non-empty only if the response carried them as its `results` array. |
| `Tmdb.DiscoverKeepsArray` | tmdb.ts:99-101 | A response whose `results` is an array yields exactly that array, for either catalog. |
| `Tmdb.GetApiBaseUrl` | tmdb.ts:77-85 | The local URL is used exactly when there is no window or the hostname is localhost or 127.0.0.1; otherwise the deployed URL. |
| `Card.DragEndSwipe` | Card.tsx:57-81 | Up is reported iff up is past its threshold. Left is reported iff up is not past and left is. Right is reported iff neither up nor left is past and right is. Nothing is reported otherwise. |
| `Card.DragEnabled` | Card.tsx:92 | The card can be dragged iff no swipe direction is set. |
| `Card.MirrorSymmetry` | Card.tsx:63-76 | Mirroring a drag mirrors the reported swipe, unless the drag signals both left and right. |
| `Card.LeftWinsConflicts` | Card.tsx:67-76 | A drag that signals both left and right (and not up) is reported as left, before and after mirroring. |
| `Card.FurtherKeepsSwipe` | Card.tsx:57-81 | Dragging further in the reported direction keeps the report. |
| `History.Prepend` | HistoryManager.ts:27-33 | The new entry comes first and the older entries follow in order. The history is cut to ten entries. |
| `History.LikedTitles` | HistoryManager.ts:57-61 | The liked list is no longer than the history. |
| `History.LikedTitlesMembers` | HistoryManager.ts:57-61 | A title is in the liked list iff some like or match entry carries it. |
| `History.LikedTitlesAppend` | HistoryManager.ts:57-61 | Filtering keeps history order: the list for a concatenation is the concatenation of the lists. |
| `History.SlotAfterSave` | HistoryManager.ts:17-43 | The storage slot is unchanged when the movie is missing or the write throws. Otherwise it holds one to ten entries, and the new one is first. |
| `History.HistoryManagerService.constructor` | HistoryManager.ts:69 | The singleton service reads and writes the storage slot it is given. |
| `History.HistoryManagerService.GetHistory` | HistoryManager.ts:46-54 | An absent or unreadable slot reads as the empty history; otherwise as its contents. |
| `History.HistoryManagerService.GetLikedMovies` | HistoryManager.ts:57-61 | The result lists exactly the titles of like and match entries. |
| `History.HistoryManagerService.SaveInteraction` | HistoryManager.ts:17-43 | A missing movie or a failed write leaves the slot unchanged. Otherwise the slot holds the old history with the new entry in front, cut to ten entries. |
| `History.HistoryManagerService.Clear` | HistoryManager.ts:64-66 | The slot is removed, and the history then reads as empty. |
| `History.SavedHistoryShape` | HistoryManager.ts:27-33 | After a save the newest entry is first and there are one to ten entries. A short history is kept whole behind the new entry. |
| `History.SaveLikeListsFirst` | HistoryManager.ts:17-61 | Saving a like or a match puts its title first in the liked list, followed by the liked titles of the entries that remain. |
| `ImageCache.PosterUrl` | ImageCache.ts:50-57 | Only an ok response with a non-empty poster path gives a URL: the w780 base URL followed by that path. |
| `ImageCache.Notifications` | ImageCache.ts:108-113 | Each registered callback is called once with the URL, in registration order. |
| `ImageCache.Without` | ImageCache.ts:101-106 | The list without the callback keeps every other callback. |
| `ImageCache.WithoutSingle` | ImageCache.ts:104 | A single callback is kept iff it is not the removed one. |
| `ImageCache.WithoutAppend` | ImageCache.ts:104 | Removal distributes over concatenation, so the other callbacks keep their order and repeats. |
| `ImageCache.ImageCacheService.constructor` | ImageCache.ts:12-17 | The cache starts empty. It is in fallback mode iff no API key is configured. |
| `ImageCache.ImageCacheService.Has` | ImageCache.ts:20-22 | True iff the title has a cached URL. |
| `ImageCache.ImageCacheService.GetSync` | ImageCache.ts:25-27 | The cached URL, present iff the title is cached. It is always a w780 poster URL. |
| `ImageCache.ImageCacheService.GetUrlStart` | ImageCache.ts:30-38 | A cached title is answered from the cache. Fallback mode or a lookup already in flight declines. Otherwise the title becomes pending. |
| `ImageCache.ImageCacheService.GetUrlFinish` | ImageCache.ts:40-83 | A 429 sets fallback mode for good. A found poster is cached and announced. Any other outcome announces null. The title stops being pending, and earlier cache entries are kept. |
| `ImageCache.ImageCacheService.Notify` | ImageCache.ts:108-113 | Every listener of the title is called with the URL, in order. |
| `ImageCache.ImageCacheService.Subscribe` | ImageCache.ts:86-99 | The callback is appended to the title's listeners. A cached URL is handed over at once; otherwise a lookup is started unless one is in flight or fallback mode is on. |
| `ImageCache.ImageCacheService.Unsubscribe` | ImageCache.ts:101-106 | Every registration of the callback for that title is removed; other titles are untouched. |
| `ImageCache.ImageCacheService.Preload` | ImageCache.ts:116-124 | Fallback mode starts nothing. Otherwise exactly the listed titles that are neither cached nor pending are started, and they become pending. |
| `Data.QuestionsShape` | data.ts:13-56 | There are six questions, numbered 1 to 6 in order. |
| `Data.PoolsHaveEightMovies` | data.ts:178-498 | Every pool of the table has eight movies. |
| `Data.PoolsAreTableValues` | data.ts:163 | The pool list that `getAllMovies` flattens holds, key by key, the pools the decision table looks up. |
| `Data.PoolIsTableValueLow` | data.ts:178-498 | The first twelve listed pools are the table's values for their keys. |
| `Data.PoolIsTableValueHigh` | data.ts:178-498 | The last twelve listed pools are the table's values for their keys. |
| `Data.TableKeysListed` | data.ts:178-498 | The table's keys are exactly the twenty-four listed keys. |
| `Data.ListedKeysShape` | data.ts:178-498 | Every five-letter L/R key that does not start with "LR" is a key of the table. |
| `Data.NoAnimeDeepDiveCategory` | data.ts:178-498 | No key starting with "LR" is in the table. |
| `Data.ListedKeysNotAnimeDeepDive` | data.ts:178-498 | Every listed key has five letters and does not start with "LR". |
| `Data.PoolFor` | data.ts:129-131 | The pool looked up for a path always has eight movies. |
| `Data.Slice` | data.ts:140 | JavaScript `slice` on an in-range window is the subsequence. |
| `Data.FinalPool` | data.ts:136-141 | A "popular" answer (second letter L) draws from the first four movies of the pool, any other answer from the last four. |
| `Data.GetResult` | data.ts:122-145 | The result is the movie in the chosen half of the path's pool at the draw's position. |
| `Data.EveryPoolMovieReachable` | data.ts:140-144 | Every movie of the chosen half is the result for some draw. |
| `Data.PopularityOnlyPicksHalf` | data.ts:128-131 | The popularity answer never changes the pool, only the half of it. |
| `Data.AnimeDeepDiveFallsBack` | data.ts:129-131 | An anime path with the "Deep Dive" mood has no category and uses the "LLLLL" pool. |
| `Data.SixAnswerPathsFound` | data.ts:122-131 | For a full L/R path, the table has its category iff it is not an anime "Deep Dive" path. |
| `Data.SwapCells` | data.ts:154-155 | The two array cells are exchanged in place. |
| `Data.Shuffle` | data.ts:148-159 | The array is shuffled in place and returned: it becomes the swap-down of its old contents and keeps its multiset. |
| `Data.Flatten` | data.ts:163 | Every movie of every pool is in the flattened list. |
| `Data.FlattenMembers` | data.ts:163 | A movie is in the flattened list iff it is in one of the pools. |
| `Data.BuildTitleMap` | data.ts:164 | The title map has distinct keys, exactly the keys it stores values for, and each value carries its key as title. |
| `Data.BuildTitleMapKeys` | data.ts:164 | The map's keys are exactly the titles of the items. |
| `Data.BuildTitleMapKeepsLast` | data.ts:164 | Each title maps to the last item that carries it. |
| `Data.ValuesOf` | data.ts:164 | `values()` lists the value of each key, in key order. |
| `Data.UniqueByTitle` | data.ts:164 | No two of the unique movies share a title. |
| `Data.UniqueByTitleTitles` | data.ts:164 | A title occurs among the unique movies iff it occurs among the input movies. |
| `Data.UniqueByTitleKeepsLast` | data.ts:164 | Each unique movie is the last input movie with its title. |
| `Data.ShuffledUnique` | data.ts:164-165 | A fresh array holding the unique movies shuffled, as a permutation of them. |
| `Data.GetAllMovies` | data.ts:162-166 | All table movies, one per title, shuffled into a fresh array. |
| `Stream.PagesFrom` | App.tsx:72-73 | Every listed page is in range and not yet fetched. |
| `Stream.PagesFromMembers` | App.tsx:72-73 | A page is listed iff it is in range and not fetched. |
| `Stream.PagesFromIncreasing` | App.tsx:72-73 | Available pages are listed in increasing order. |
| `Stream.NextRandomPage` | App.tsx:70-82 | The next page is in 1..25, and it is unfetched whenever an unfetched page exists. |
| `Stream.EveryAvailablePageReachable` | App.tsx:80-81 | Every unfetched page is chosen for some draw. |
| `Stream.ExhaustedPagesRestart` | App.tsx:75-78 | Once all pages are fetched, every page can be chosen again. |
| `Stream.TrimStart` | App.tsx:116 | Only leading JavaScript white space is removed. |
| `Stream.TrimEnd` | App.tsx:116 | Only trailing JavaScript white space is removed. |
| `Stream.TrimEmptyIffBlank` | App.tsx:116 | Trimming leaves text iff the text has a character that is not white space. |
| `Stream.UsableIffVisibleOverview` | App.tsx:116-117 | A record is kept iff its overview is present and has a character that is not white space. |
| `Stream.MapToResult` | App.tsx:120-126 | The card carries the record's id, title and overview. Its image is empty iff there is no poster. Its match rate is the rating times ten, rounded down. |
| `Stream.CardImageKeepsPoster` | App.tsx:123 | A card's image gives back the record's poster path. |
| `Stream.UsableCards` | App.tsx:116-129 | Filtering and mapping never lengthen the list, and every card carries an id. |
| `Stream.UsableCardsSingle` | App.tsx:116-129 | A single record gives its card iff it is usable. |
| `Stream.UsableCardsAppend` | App.tsx:116-129 | Filtering and mapping distribute over concatenation, so cards keep the order and multiplicity of their records. |
| `Stream.UsableCardsMembers` | App.tsx:116-129 | A card is produced iff some usable record maps to it. |
| `Stream.SettledMovies` | App.tsx:109-110 | A rejected promise contributes no records; a fulfilled one contributes its value. |
| `Stream.CombinedMembers` | App.tsx:104-132 | A card is in the combined list iff it comes from a usable record of either catalog's response. |
| `Stream.PartialFailureKeepsOther` | App.tsx:103-110 | When one catalog's request fails, the batch is the other catalog's cards. |
| `Stream.ShuffleArray` | App.tsx:60-67 | The copy is the swap-down (floor 1) of the input and a permutation of it. |
| `Stream.BuildBatch` | App.tsx:104-137 | The batch is the shuffled combination of both catalogs' usable cards, a permutation of it, and every card carries an id. |
| `Stream.Ids` | App.tsx:153 | The set holds exactly the identifiers of the buffer's cards. |
| `Stream.Fresh` | App.tsx:154 | The kept cards are exactly the batch cards whose identifier is not in the set. |
| `Stream.FreshSingle` | App.tsx:154 | A single card is kept iff its identifier is not in the set. |
| `Stream.FreshAppend` | App.tsx:154 | Filtering distributes over concatenation, so kept cards stay in batch order with their multiplicity. With `FreshSingle`, this fixes the result completely. |
| `Stream.AppendUnique` | App.tsx:152-155 | The old buffer is kept as a prefix. The tail holds exactly the batch cards whose identifier the old buffer lacks. |
| `Stream.AppendUniqueKeepsBatchOrder` | App.tsx:152-155 | New cards are added in batch order: the first part of a split batch is added before the second part. |
| `Stream.FreshUnique` | App.tsx:154 | Filtering a batch with unique identifiers keeps them unique. |
| `Stream.AppendKeepsUnique` | App.tsx:152-155 | Appending a batch with unique identifiers to a buffer with unique identifiers keeps them unique. |
| `Stream.AppendTwiceIsAppendOnce` | App.tsx:152-155 | Delivering the same batch twice adds nothing the second time. |
| `Stream.InBatchDuplicateSurvives` | App.tsx:152-155 | Two cards of one batch with the same identifier both reach the buffer. |
| `Stream.CurrentItem` | App.tsx:55 | The top card is missing iff the buffer is empty. Otherwise it is a card of the buffer, and inside the buffer it is the card at the cursor. |
| `Stream.CurrentItemWraps` | App.tsx:54-55 | The cursor wraps around: moving it by the buffer's length shows the same card. With the in-range case, this fixes the card at every cursor position. |
| `Stream.NextItem` | App.tsx:57 | The card underneath is missing iff the buffer is empty. |
| `Stream.NextItemIsNextCurrent` | App.tsx:55-57 | The card underneath is the one on top after a skip. |
| `Stream.AppendKeepsCurrent` | App.tsx:152-155 | Appending never changes the top card while the cursor is inside the old buffer. |
| `Stream.UpcomingImages` | App.tsx:170-175 | The n URLs are the images of the n cards after the cursor, wrapping around. |
| `Stream.CollectPreloadUrls` | App.tsx:169-175 | An empty buffer gives no URLs; otherwise the images of the next five cards. |
| `Stream.PreloadRequests` | App.tsx:21-27 | Exactly the non-empty URLs are requested. |
| `Stream.Images` | App.tsx:196 | The images of the cards, in order. |
| `Stream.FirstImages` | App.tsx:196 | The images of the first five cards, or of all cards if there are fewer. |
| `App.Answer` | App.tsx:264-272 | Left answers 'L', right answers 'R', and a skip answers by the coin. |
| `App.RandomAction` | App.tsx:310-335 | A right swipe likes, a left swipe dislikes, and an up swipe skips. |
| `App.Session.constructor` | App.tsx:30-49 | The initial state: start screen, select mode, empty buffer, nothing fetched, no direction, no timers. |
| `App.Session.ReservePages` | App.tsx:89-101 | Each catalog's next page is drawn and added to its fetched set before the requests go out. |
| `App.Session.BufferEffect` | App.tsx:141-176 | In random mode with cards: a refill starts iff fewer than ten cards remain and none is running, and the next five images are preloaded. Otherwise nothing happens. |
| `App.Session.StartRefillIfLow` | App.tsx:145-148 | The lock is taken and pages are reserved iff the buffer is low and unlocked; otherwise nothing changes. |
| `App.Session.RefillSettled` | App.tsx:148-165 | The batch is appended without cards the buffer holds. The lock is released. The top card is unchanged. |
| `App.Session.InitialLoad` | App.tsx:186-202 | The first load: pages drawn from empty sets. A non-empty batch replaces the buffer and its first five images are preloaded. The lock ends released. |
| `App.Session.TakeFirstBatch` | App.tsx:192-197 | A non-empty first batch replaces the buffer as it is; an empty one changes nothing. |
| `App.Session.HandleStartGame` | App.tsx:181-217 | The stream is loaded only for random mode with an empty buffer. Random mode resets the cursor; select mode resets the answers. The intro plays. |
| `App.Session.BeginRound` | App.tsx:205-215 | The mode is set, its round starts over, and the intro plays. |
| `App.Session.HandleModeSwitch` | App.tsx:219-243 | Nothing for the current mode. The stream is loaded only when switching to random mode with an empty buffer. |
| `App.Session.ToggleHistory` | App.tsx:245-248 | The history panel flips. |
| `App.Session.IntroDone` | App.tsx:394 | After the intro, the cards are shown. |
| `App.Session.HandleSwipe` | App.tsx:251-257 | A swipe during another swipe is ignored. Otherwise the direction is set and a timer is armed with the captured mode, path, question index and top card. |
| `App.Session.SwipeTimerFires` | App.tsx:257-342 | The oldest swipe timer fires and runs the select or random branch for the mode it captured; the other mode's state is kept. |
| `App.Session.SelectSwipe` | App.tsx:258-299 | The captured path gains the answer. On the last question the result is computed, recorded as a match and preloaded, and the reveal is armed; otherwise the question index moves on. |
| `App.Session.RandomSwipe` | App.tsx:300-339 | The captured card is recorded. A right swipe selects it, preloads it and arms the reveal, or throws when there is no card. Left and up move the cursor. |
| `App.Session.RevealTimerFires` | App.tsx:293-296 | The result is shown; a select-mode reveal also counts the last question. |
| `App.Session.HandleReset` | App.tsx:345-360 | Select mode restarts its answers; random mode moves to the next card. The cards come back and the direction clears. |
| `App.Session.HandleFullReset` | App.tsx:362-365 | Back to the start screen with no direction. |

## Left out

- Sound (`AudioManager.ts`, the `audioManager` calls, and the awaited audio resume in `handleStartGame`) is not part of this model. It changes no state the core reads.
- The React components (`BackCard.tsx`, `HistoryView.tsx`, `Intro.tsx`, `Matching.tsx`, `Result.tsx`, `StartScreen.tsx`, the JSX of `App.tsx`), the card's animations, the progress percentage and the current question lookup are not part of this model. They are presentation.
- `server/server.js` is not part of this model. Its answers reach the core only as the `HttpOutcome` inputs.
- `searchMovies`, `getPopularMovies`, `getDiscoverMovies` and the axios instance with its fallback API key (tmdb.ts:19-72) are left out. The core never calls them.
- The `useTMDbImage` hook (ImageCache.ts:130-165) is left out. It is React glue over `GetSync`, `Subscribe` and `Unsubscribe`, which are modelled.
- Network, clock and storage are inputs. Browser image loading (`new Image()` in `preloadImages` and in `getUrl`) is left out; the model only records which URLs are requested, and both outcomes of the awaited image load lead on the same way.
- Asynchrony is left out. Each handler runs as one sequential method. The 400 ms and 1500 ms delays are queue entries fired in order. A first load (`handleStartGame`, `handleModeSwitch`) is one atomic step. A refill is split into its start (`BufferEffect`, `StartRefillIfLow`) and its settlement (`RefillSettled`), and a poster lookup into `GetUrlStart` and `GetUrlFinish`, so any handler can run between the two halves. Interleavings inside the first load are not modelled, and neither is React's batching of state updates or the effect's re-run triggers.
- Randomness is a sequence of draws, not a distribution. A shuffle draw past its range reads as the top index, and a missing draw reads as 0. Single picks are reduced modulo their range.
- Numbers: `vote_average` is a real and `Math.floor` is exact, so floating-point rounding is not modelled. Record ids are unbounded integers.
- Record fields: an `overview` that is not a string is outside the model, which takes it as an optional string. A stored history that parses but is not a list of entries is also outside the model. Unreadable storage is `None`.
- `Stream.ShuffleArray`: the copy `shuffleArray` makes is private to the call, so the model shuffles a sequence value instead of an array.
- `ImageCache.ImageCacheService`: callbacks are identified by numbers, and a call to one is an entry in `log`. What a callback does is not modelled.
