/**
 * The interaction history kept in the browser's local storage: newest entry
 * first, at most ten entries. The storage slot is a field; `None` stands for
 * a slot that is absent, empty or does not parse, which all read as [].
 */
module History {
  import opened Wrappers
  import opened Types

  /** How many entries the history keeps. */
  const MaxEntries: nat := 10

  datatype InteractionType = Like | Dislike | Match | Skip

  datatype HistoryEntry = HistoryEntry(movieTitle: string, action: InteractionType, timestamp: int)

  /** The history after recording `entry`: the entry in front, the oldest dropped past ten. */
  function Prepend(history: seq<HistoryEntry>, entry: HistoryEntry): (r: seq<HistoryEntry>)
    ensures |r| == if |history| + 1 < MaxEntries then |history| + 1 else MaxEntries
    ensures r[0] == entry
    ensures r[1..] == history[..|r| - 1]
  {
    var h := [entry] + history;
    if |h| > MaxEntries then h[..MaxEntries] else h
  }

  /** Titles of the liked and matched entries, in history order. */
  function LikedTitles(history: seq<HistoryEntry>): (titles: seq<string>)
    ensures |titles| <= |history|
  {
    if history == [] then []
    else
      var rest := LikedTitles(history[1..]);
      if history[0].action == Like || history[0].action == Match then [history[0].movieTitle] + rest else rest
  }

  /** A title is listed exactly when some like or match entry carries it. */
  lemma {:induction false} LikedTitlesMembers(history: seq<HistoryEntry>, title: string)
    ensures title in LikedTitles(history) <==>
      exists i :: 0 <= i < |history| && history[i].movieTitle == title && history[i].action in {Like, Match}
  {
    if history != [] {
      LikedTitlesMembers(history[1..], title);
      if title in LikedTitles(history[1..]) {
        var i :| 0 <= i < |history[1..]| && history[1..][i].movieTitle == title && history[1..][i].action in {Like, Match};
        assert history[i + 1] == history[1..][i];
      }
      if exists i :: 0 <= i < |history| && history[i].movieTitle == title && history[i].action in {Like, Match} {
        var i :| 0 <= i < |history| && history[i].movieTitle == title && history[i].action in {Like, Match};
        if i > 0 {
          assert history[1..][i - 1] == history[i];
        }
      }
    }
  }

  /** Filtering keeps history order: the titles of a concatenation are the concatenation of the titles. */
  lemma {:induction false} LikedTitlesAppend(a: seq<HistoryEntry>, b: seq<HistoryEntry>)
    ensures LikedTitles(a + b) == LikedTitles(a) + LikedTitles(b)
  {
    if a != [] {
      assert (a + b)[1..] == a[1..] + b;
      LikedTitlesAppend(a[1..], b);
    } else {
      assert a + b == b;
    }
  }

  /**
   * The storage slot after an interaction is saved: unchanged when there is
   * no movie or the write fails, otherwise the history read from the slot
   * with the new entry in front.
   */
  function SlotAfterSave(slot: Option<seq<HistoryEntry>>, movie: Option<ResultItem>, action: InteractionType, now: int, writeFails: bool): (next: Option<seq<HistoryEntry>>)
    ensures movie.None? || writeFails ==> next == slot
    ensures movie.Some? && !writeFails ==>
      next.Some? && 1 <= |next.value| <= MaxEntries && next.value[0] == HistoryEntry(movie.value.title, action, now)
  {
    if movie.None? || writeFails then slot
    else Some(Prepend(slot.GetOr([]), HistoryEntry(movie.value.title, action, now)))
  }

  /** The history service; `stored` is the local-storage slot under 'swappy_user_history'. */
  class HistoryManagerService {
    var stored: Option<seq<HistoryEntry>>

    constructor (slot: Option<seq<HistoryEntry>>)
      ensures stored == slot
    {
      stored := slot;
    }

    /** The stored history, or [] when nothing (readable) is stored. */
    function GetHistory(): (history: seq<HistoryEntry>)
      reads this
      ensures stored.None? ==> history == []
      ensures stored.Some? ==> history == stored.value
    {
      stored.GetOr([])
    }

    /** The titles of liked and matched movies, newest first. */
    function GetLikedMovies(): (titles: seq<string>)
      reads this
      ensures forall t :: t in titles <==> exists i :: 0 <= i < |GetHistory()| && GetHistory()[i].movieTitle == t && GetHistory()[i].action in {Like, Match}
    {
      var h := GetHistory();
      assert forall t :: t in LikedTitles(h) <==> exists i :: 0 <= i < |h| && h[i].movieTitle == t && h[i].action in {Like, Match} by {
        forall t ensures t in LikedTitles(h) <==> exists i :: 0 <= i < |h| && h[i].movieTitle == t && h[i].action in {Like, Match} {
          LikedTitlesMembers(h, t);
        }
      }
      LikedTitles(h)
    }

    /**
     * Records an interaction at time `now`. `movie` is `None` when the caller
     * passes no movie (reading its title throws); `writeFails` says whether
     * the storage write throws (quota). Both errors are swallowed and leave
     * the slot as it was.
     */
    method SaveInteraction(movie: Option<ResultItem>, action: InteractionType, now: int, writeFails: bool)
      modifies this
      ensures movie.None? || writeFails ==> stored == old(stored)
      ensures movie.Some? && !writeFails ==>
        stored == Some(Prepend(old(GetHistory()), HistoryEntry(movie.value.title, action, now)))
      ensures stored == SlotAfterSave(old(stored), movie, action, now, writeFails)
    {
      var history := GetHistory();
      if movie.None? {
        return;
      }
      var entry := HistoryEntry(movie.value.title, action, now);
      history := [entry] + history;
      if |history| > MaxEntries {
        history := history[..MaxEntries];
      }
      if writeFails {
        return;
      }
      stored := Some(history);
    }

    /** Removes the slot. */
    method Clear()
      modifies this
      ensures stored == None && GetHistory() == []
    {
      stored := None;
    }
  }

  /** After a successful save the newest entry is first and the history holds at most ten entries. */
  lemma SavedHistoryShape(old_history: seq<HistoryEntry>, entry: HistoryEntry)
    ensures Prepend(old_history, entry)[0] == entry
    ensures 1 <= |Prepend(old_history, entry)| <= MaxEntries
    ensures |old_history| < MaxEntries ==> Prepend(old_history, entry)[1..] == old_history
  {
  }

  /** A save of a like or match puts its title first in the liked list, followed by the earlier liked titles that remain. */
  lemma {:induction false} SaveLikeListsFirst(history: seq<HistoryEntry>, entry: HistoryEntry)
    requires entry.action in {Like, Match}
    ensures LikedTitles(Prepend(history, entry)) == [entry.movieTitle] + LikedTitles(history[..|Prepend(history, entry)| - 1])
  {
    var r := Prepend(history, entry);
    assert r == [entry] + r[1..];
  }
}
