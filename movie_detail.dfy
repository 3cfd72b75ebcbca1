/**
 * The movie-detail screen's view model: how the latest values of its four inputs are
 * reduced to one UI state, how the movie and watchlist flows are turned into `Async`
 * values, and the two user actions that write to the repositories.
 *
 * The movie type `M` is left abstract: nothing here inspects a movie's details.
 */
module MovieDetail {
  import opened Wrappers
  import opened Util
  import opened Data

  // String-resource ids. Their numeric values are generated at build time; the model
  // relies only on the two being different.
  const MovieNotFound: int := 1
  const LoadingMovieError: int := 2

  /** Whatever an upstream flow threw; the view model only logs it. */
  datatype StreamError = StreamError

  /** What `addToWatchlist` throws for a missing timestamp. */
  datatype Exception = IllegalArgumentException

  /** The screen's state; every field's Kotlin default is "absent" or false. */
  datatype UiState<+M> = UiState(movie: Option<M> := None, isInWatchlist: bool := false,
                                 isLoading: bool := false, userMessage: Option<int> := None)

  /** The value the state flow holds before its first emission: only the loading flag is set. */
  function InitialUiState<M>(): (s: UiState<M>)
    ensures s.isLoading && !s.isInWatchlist && s.movie == None && s.userMessage == None
  {
    UiState(isLoading := true)
  }

  /**
   * The reducer applied to the latest value of each input. Only a loaded movie lets the
   * message, loading and watchlist inputs through; the watchlist flag is shown only when
   * membership is known to be true.
   */
  function Reduce<M>(userMessage: Option<int>, isLoading: bool, movieAsync: Async<Option<M>>,
                     isInWatchlistAsync: Async<bool>): (s: UiState<M>)
    ensures movieAsync.Loading? ==> s == InitialUiState()
    ensures movieAsync.Error? ==>
      s.userMessage == Some(movieAsync.errorMessage) && s.movie == None && !s.isLoading && !s.isInWatchlist
    ensures movieAsync.Success? ==>
      s.movie == movieAsync.data && s.isLoading == isLoading && s.userMessage == userMessage
    ensures s.isInWatchlist <==> movieAsync.Success? && isInWatchlistAsync == Success(true)
  {
    match movieAsync
    case Loading => UiState(isLoading := true)
    case Error(e) => UiState(userMessage := Some(e))
    case Success(d) =>
      UiState(movie := d, isInWatchlist := isInWatchlistAsync.Success? && isInWatchlistAsync.data,
              isLoading := isLoading, userMessage := userMessage)
  }

  /** A missing movie is an error with the "not found" message; a present one is loaded data. */
  function HandleMovie<M>(movie: Option<M>): (a: Async<Option<M>>)
    ensures !a.Loading?
    ensures a.Error? <==> movie == None
    ensures a.Error? ==> a.errorMessage == MovieNotFound
    ensures a.Success? ==> a.data == movie && a.data != None
  {
    if movie == None then Error(MovieNotFound) else Success(movie)
  }

  /** Watchlist membership is always loaded data. */
  function HandleBoolean(b: bool): (a: Async<bool>)
    ensures a.Success? && a.data == b
  {
    Success(b)
  }

  /** The movie flow after mapping through `HandleMovie` and catching a failure. */
  function MovieAsync<M>(upstream: Result<Option<M>, StreamError>): (a: Async<Option<M>>)
    ensures !a.Loading?
    ensures a.Success? <==> upstream.Ok? && upstream.value != None
    ensures a.Success? ==> a.data == upstream.value
    ensures a.Error? ==> a.errorMessage == (if upstream.Err? then LoadingMovieError else MovieNotFound)
  {
    match upstream
    case Ok(movie) => HandleMovie(movie)
    case Err(_) => Error(LoadingMovieError)
  }

  /** The watchlist-membership flow after mapping through `HandleBoolean` and catching a failure. */
  function WatchlistAsync(upstream: Result<bool, StreamError>): (a: Async<bool>)
    ensures !a.Loading?
    ensures a.Success? <==> upstream.Ok?
    ensures a.Success? ==> a.data == upstream.value
    ensures a.Error? ==> a.errorMessage == LoadingMovieError
  {
    match upstream
    case Ok(b) => HandleBoolean(b)
    case Err(_) => Error(LoadingMovieError)
  }

  /**
   * The state emitted once every input has delivered a value. A movie-flow failure and a
   * missing movie each replace the whole state by their message; a watchlist failure never
   * reaches the message slot and only reads as "not in the watchlist". The loading flag is
   * set only by the loading input, and only while a movie is shown.
   */
  function Combined<M>(userMessage: Option<int>, isLoading: bool, movie: Result<Option<M>, StreamError>,
                       inWatchlist: Result<bool, StreamError>): (s: UiState<M>)
    ensures s.movie != None <==> movie.Ok? && movie.value != None
    ensures s.movie != None ==> s.movie == movie.value
    ensures s.userMessage ==
      if movie.Err? then Some(LoadingMovieError)
      else if movie.value == None then Some(MovieNotFound)
      else userMessage
    ensures s.isLoading <==> isLoading && s.movie != None
    ensures s.isInWatchlist <==> s.movie != None && inWatchlist == Ok(true)
  {
    Reduce(userMessage, isLoading, MovieAsync(movie), WatchlistAsync(inWatchlist))
  }

  /**
   * Only a loaded movie lets the other three inputs affect the state: for a loading or
   * failed movie the message, loading and watchlist inputs are ignored.
   */
  lemma ReduceIgnoresInputsUnlessLoaded<M>(movieAsync: Async<Option<M>>,
                                           u1: Option<int>, l1: bool, w1: Async<bool>,
                                           u2: Option<int>, l2: bool, w2: Async<bool>)
    requires !movieAsync.Success?
    ensures Reduce(u1, l1, movieAsync, w1) == Reduce(u2, l2, movieAsync, w2)
  {
  }

  /** Both flows report a failure with the same message, so the screen cannot tell them apart. */
  lemma FailuresShareMessage<M>(e1: StreamError, e2: StreamError)
    ensures MovieAsync<M>(Err(e1)) == Error(LoadingMovieError) && WatchlistAsync(Err(e2)) == Error(LoadingMovieError)
    ensures MovieAsync<M>(Err(e1)) != MovieAsync<M>(Ok(None))
  {
  }

  /** A failed watchlist flow shows exactly what a watchlist without the movie shows. */
  lemma WatchlistFailureLooksAbsent<M>(userMessage: Option<int>, isLoading: bool,
                                       movie: Result<Option<M>, StreamError>, e: StreamError)
    ensures Combined(userMessage, isLoading, movie, Err(e)) == Combined(userMessage, isLoading, movie, Ok(false))
  {
  }

  // ---- Dates ----

  const MillisPerSecond: int := 1000
  const SecondsPerDay: int := 86_400
  const MillisPerDay: int := 86_400_000

  /** A Kotlin `Long`. */
  type Long = x: int | -0x8000_0000_0000_0000 <= x < 0x8000_0000_0000_0000

  // The range of seconds an `Instant` can hold, and of epoch days a `LocalDate` can hold,
  // in java.time.
  const MinInstantSecond: int := -31_557_014_167_219_200
  const MaxInstantSecond: int := 31_556_889_864_403_199
  const MinEpochDay: int := -365_243_219_162
  const MaxEpochDay: int := 365_241_780_471

  /**
   * `Instant.ofEpochMilli`: whole seconds since the epoch, rounded toward minus infinity
   * (Dafny's `/` by a positive divisor is floor division, as `Math.floorDiv` is).
   */
  function EpochSecond(millis: int): (sec: int)
    ensures sec * MillisPerSecond <= millis < sec * MillisPerSecond + MillisPerSecond
  {
    millis / MillisPerSecond
  }

  /** `LocalDate.ofInstant` at offset zero, stopped at the day count: the UTC day holding the instant. */
  function UtcEpochDay(millis: int): (day: int)
    ensures day * MillisPerDay <= millis < day * MillisPerDay + MillisPerDay
  {
    EpochSecond(millis) / SecondsPerDay
  }

  /** Rounding to seconds and then to days gives the day of the instant directly. */
  lemma UtcEpochDayIsFloor(millis: int)
    ensures UtcEpochDay(millis) == millis / MillisPerDay
  {
  }

  /** Neither conversion can go out of java.time's range for a `Long`: a timestamp never fails. */
  lemma LongTimestampConverts(millis: Long)
    ensures MinInstantSecond <= EpochSecond(millis) <= MaxInstantSecond
    ensures MinEpochDay <= UtcEpochDay(millis) <= MaxEpochDay
  {
  }

  // ---- Watchlist toggling ----

  /**
   * The watchlist after `toggleInWatchlist` dispatches on the displayed state: the movie
   * is absent afterwards exactly when the screen showed it in the watchlist, and no other
   * movie is touched.
   */
  function Toggled<M>(entries: set<int>, movieId: int, shown: UiState<M>): (after: set<int>)
    ensures movieId in after <==> !shown.isInWatchlist
    ensures after - {movieId} == entries - {movieId}
  {
    if shown.isInWatchlist then entries - {movieId} else entries + {movieId}
  }

  /** The state the view model shows once both flows have caught up with the repository. */
  function SyncedState<M>(movie: M, movieId: int, entries: set<int>): UiState<M>
  {
    Combined(None, false, Ok(Some(movie)), Ok(movieId in entries))
  }

  /** The watchlist after `n` toggles, each made on a screen in sync with the repository. */
  function ToggledTimes<M>(entries: set<int>, movieId: int, movie: M, n: nat): set<int>
    decreases n
  {
    if n == 0 then entries
    else ToggledTimes(Toggled(entries, movieId, SyncedState(movie, movieId, entries)), movieId, movie, n - 1)
  }

  /** On an up-to-date screen each toggle flips the movie's membership and leaves the rest alone. */
  lemma {:induction false} ToggledTimesAlternates<M>(entries: set<int>, movieId: int, movie: M, n: nat)
    ensures movieId in ToggledTimes(entries, movieId, movie, n) <==> (movieId in entries) != (n % 2 == 1)
    ensures ToggledTimes(entries, movieId, movie, n) - {movieId} == entries - {movieId}
    decreases n
  {
    if n > 0 {
      var once := Toggled(entries, movieId, SyncedState(movie, movieId, entries));
      ToggledTimesAlternates(once, movieId, movie, n - 1);
    }
  }

  /** On an up-to-date screen, toggling twice restores the watchlist. */
  lemma ToggleTwiceRestores<M>(entries: set<int>, movieId: int, movie: M)
    ensures ToggledTimes(entries, movieId, movie, 2) == entries
  {
  }

  /**
   * Before the first emission, and whenever the watchlist flow has failed, a toggle adds
   * the movie: it can never be removed from such a screen.
   */
  lemma ToggleOnUnknownMembershipAdds<M>(entries: set<int>, movieId: int, userMessage: Option<int>,
                                         isLoading: bool, movie: Result<Option<M>, StreamError>, e: StreamError)
    ensures movieId in Toggled(entries, movieId, InitialUiState<M>())
    ensures movieId in Toggled(entries, movieId, Combined(userMessage, isLoading, movie, Err(e)))
  {
  }

  // ---- The view model ----

  class MovieDetailViewModel<M> {
    const movieId: int
    const watchlistRepository: WatchlistRepository
    const diaryRepository: DiaryRepository
    var userMessage: Option<int>
    var isLoading: bool
    /** The current value of the UI state flow. */
    var uiState: UiState<M>

    constructor (movieId: int, watchlistRepository: WatchlistRepository, diaryRepository: DiaryRepository)
      ensures this.movieId == movieId
      ensures this.watchlistRepository == watchlistRepository && this.diaryRepository == diaryRepository
      ensures userMessage == None && !isLoading
      ensures uiState == InitialUiState()
    {
      this.movieId := movieId;
      this.watchlistRepository := watchlistRepository;
      this.diaryRepository := diaryRepository;
      userMessage := None;
      isLoading := false;
      uiState := InitialUiState();
    }

    /** One emission of the combined flow, given the latest value of the movie and watchlist flows. */
    method Emit(movie: Result<Option<M>, StreamError>, inWatchlist: Result<bool, StreamError>)
      modifies this`uiState
      ensures uiState == Combined(userMessage, isLoading, movie, inWatchlist)
    {
      uiState := Combined(userMessage, isLoading, movie, inWatchlist);
    }

    /** Removes the movie when the screen shows it in the watchlist, and adds it otherwise. */
    method ToggleInWatchlist()
      modifies watchlistRepository
      ensures watchlistRepository.entries == Toggled(old(watchlistRepository.entries), movieId, uiState)
      ensures unchanged(this) && unchanged(diaryRepository)
    {
      if uiState.isInWatchlist {
        watchlistRepository.RemoveEntry(movieId);
      } else {
        watchlistRepository.CreateEntry(movieId);
      }
    }

    /**
     * Logs the movie in the diary on the UTC day of the timestamp; a missing timestamp
     * throws before the diary is touched.
     */
    method AddToWatchlist(selectedDateMillis: Option<Long>) returns (outcome: Outcome<Exception>)
      modifies diaryRepository
      ensures selectedDateMillis == None ==>
        outcome == Fail(IllegalArgumentException) && diaryRepository.entries == old(diaryRepository.entries)
      ensures selectedDateMillis != None ==>
        outcome == Pass &&
        diaryRepository.entries == old(diaryRepository.entries) + [DiaryEntry(movieId, UtcEpochDay(selectedDateMillis.value))]
      ensures unchanged(this) && unchanged(watchlistRepository)
    {
      if selectedDateMillis == None {
        return Fail(IllegalArgumentException);
      }
      var selectedDate := UtcEpochDay(selectedDateMillis.value);
      diaryRepository.CreateEntry(movieId, selectedDate);
      outcome := Pass;
    }
  }
}
