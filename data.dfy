/**
 * The repositories the movie-detail screen writes to, as abstract state: the watchlist
 * is the set of movie ids it holds, the diary the sequence of entries in the order they
 * were created. Movie materialisation, timestamps and the database behind them are not
 * part of this model.
 */
module Data {

  /** A movie the user logged as watched, on a calendar day counted from 1970-01-01 (UTC). */
  datatype DiaryEntry = DiaryEntry(movieId: int, epochDay: int)

  class WatchlistRepository {
    var entries: set<int>

    /** A new repository holds no entry. */
    constructor ()
      ensures entries == {}
    {
      entries := {};
    }

    /** Adding a movie makes it present; adding it again changes nothing. */
    method CreateEntry(movieId: int)
      modifies this
      ensures entries == old(entries) + {movieId}
    {
      entries := entries + {movieId};
    }

    /** Removing a movie makes it absent; removing an absent movie is not an error. */
    method RemoveEntry(movieId: int)
      modifies this
      ensures entries == old(entries) - {movieId}
    {
      entries := entries - {movieId};
    }
  }

  class DiaryRepository {
    var entries: seq<DiaryEntry>

    /** A new diary is empty. */
    constructor ()
      ensures entries == []
    {
      entries := [];
    }

    /** Logging a viewing appends exactly one entry and keeps every earlier one. */
    method CreateEntry(movieId: int, epochDay: int)
      modifies this
      ensures entries == old(entries) + [DiaryEntry(movieId, epochDay)]
    {
      entries := entries + [DiaryEntry(movieId, epochDay)];
    }
  }
}
