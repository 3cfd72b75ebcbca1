# Dionysus movie-detail view model in Dafny

Dionysus is an Android app for keeping a movie watchlist and a diary of movies watched.
This project models the movie-detail screen's view model (`MovieDetailViewModel`):

- the reducer that merges four inputs into one `MovieDetailUiState`. The four inputs are
  a user-message slot, a loading flag, the movie flow and the watchlist-membership flow;
- the adapters that turn a movie, a membership flag or a flow failure into the tri-state
  `Async` value (`Loading | Error(errorMessage) | Success(data)`);
- the two user actions. `toggleInWatchlist` adds or removes the movie depending on what
  the screen shows. `addToWatchlist` logs a diary entry for the UTC day of a timestamp.
  Despite its name, it writes to the diary.

Files:

- `wrappers.dfy`: Kotlin's nullable values (`Option`), flow values that may have failed
  (`Result`) and calls that may throw (`Outcome`).
- `util.dfy`: `Async`.
- `data.dfy`: the watchlist and diary repositories as abstract state. The watchlist is a
  set of movie ids and the diary a sequence of (movie id, epoch day) entries.
- `movie_detail.dfy`: the reducer, the adapters, the date conversion, the toggle
  specification and its lemmas, and the `MovieDetailViewModel` class.

The movie type is a type parameter `M`, because the view model never looks inside a movie.
The resource ids `movie_not_found` and `loading_movie_error` are the constants
`MovieNotFound` and `LoadingMovieError`. Their real values are generated at build time,
and the model relies only on the two being different. `_userMessage` and `_isLoading` are
fields that start as `null` and `false`. Both are private and nothing in the class writes them.

A movie-flow failure replaces the whole state by its message
(`MovieDetailViewModel.kt:68-72`). A watchlist-flow failure
never reaches the message slot: it only makes the screen show "not in the watchlist"
(`MovieDetailViewModel.kt:77`). `WatchlistFailureLooksAbsent` and
`ToggleOnUnknownMembershipAdds` state the consequence. On such a screen a toggle always
adds the movie and can never remove it.

## Model

| member | source | states |
|---|---|---|
| MovieDetail.InitialUiState | app/src/main/java/me/aikovdp/dionysus/ui/screens/movie/MovieDetailViewModel.kt:84-88 | before the first emission the state has only the loading flag set: no movie, no message, not in the watchlist |
| MovieDetail.Reduce | app/src/main/java/me/aikovdp/dionysus/ui/screens/movie/MovieDetailViewModel.kt:60-83 | a loading movie gives the initial state whatever the other inputs are; a movie error gives that message and nothing else; loaded data is shown with the loading flag and message copied through; the watchlist flag is true exactly when the movie is loaded and membership is Success(true) |
| MovieDetail.HandleMovie | app/src/main/java/me/aikovdp/dionysus/ui/screens/movie/MovieDetailViewModel.kt:90-95 | null becomes Error(movie_not_found), any other movie becomes Success of that movie; never Loading |
| MovieDetail.HandleBoolean | app/src/main/java/me/aikovdp/dionysus/ui/screens/movie/MovieDetailViewModel.kt:97-99 | membership is always loaded data carrying the same flag |
| MovieDetail.MovieAsync | app/src/main/java/me/aikovdp/dionysus/ui/screens/movie/MovieDetailViewModel.kt:47-52 | the movie flow after map and catch: loaded exactly when the upstream delivered a non-null movie; a failure carries loading_movie_error and a null carries movie_not_found; never Loading |
| MovieDetail.WatchlistAsync | app/src/main/java/me/aikovdp/dionysus/ui/screens/movie/MovieDetailViewModel.kt:53-58 | the membership flow after map and catch: loaded exactly when the upstream delivered a flag; a failure carries loading_movie_error |
| MovieDetail.Combined | app/src/main/java/me/aikovdp/dionysus/ui/screens/movie/MovieDetailViewModel.kt:45-83 | end to end: a movie is shown exactly when one was delivered; the message is loading_movie_error on a movie failure, movie_not_found on null, otherwise the message input, and never depends on the watchlist flow; the loading flag is set only while a movie is shown; the watchlist flag is true exactly when a movie is shown and the flow delivered true |
| MovieDetail.ReduceIgnoresInputsUnlessLoaded | app/src/main/java/me/aikovdp/dionysus/ui/screens/movie/MovieDetailViewModel.kt:63-72 | for a loading or failed movie, the message, loading and watchlist inputs do not affect the state |
| MovieDetail.FailuresShareMessage | app/src/main/java/me/aikovdp/dionysus/ui/screens/movie/MovieDetailViewModel.kt:49-58 | a failure of either flow becomes the same Error(loading_movie_error), which differs from the not-found error |
| MovieDetail.WatchlistFailureLooksAbsent | app/src/main/java/me/aikovdp/dionysus/ui/screens/movie/MovieDetailViewModel.kt:74-80 | a failed watchlist flow gives exactly the state of a watchlist without the movie |
| MovieDetail.EpochSecond | app/src/main/java/me/aikovdp/dionysus/ui/screens/movie/MovieDetailViewModel.kt:112-113 | the instant's whole seconds are the floor of the milliseconds over 1000 |
| MovieDetail.UtcEpochDay | app/src/main/java/me/aikovdp/dionysus/ui/screens/movie/MovieDetailViewModel.kt:112-116 | the UTC day is the day whose 86 400 000 ms span contains the timestamp |
| MovieDetail.UtcEpochDayIsFloor | app/src/main/java/me/aikovdp/dionysus/ui/screens/movie/MovieDetailViewModel.kt:112-116 | rounding to seconds and then to days equals the floor of the milliseconds over 86 400 000 |
| MovieDetail.LongTimestampConverts | app/src/main/java/me/aikovdp/dionysus/ui/screens/movie/MovieDetailViewModel.kt:111-116 | for every Long timestamp, the second count lies in Instant's range and the day count lies in LocalDate's range, so only a null timestamp makes the action fail |
| MovieDetail.Toggled | app/src/main/java/me/aikovdp/dionysus/ui/screens/movie/MovieDetailViewModel.kt:101-108 | after a toggle the movie is present exactly when the screen did not show it in the watchlist, and no other movie is touched |
| MovieDetail.ToggledTimesAlternates | app/src/main/java/me/aikovdp/dionysus/ui/screens/movie/MovieDetailViewModel.kt:101-108 | on a screen in sync with the repository, n toggles flip the movie's membership n times and leave every other movie alone |
| MovieDetail.ToggleTwiceRestores | app/src/main/java/me/aikovdp/dionysus/ui/screens/movie/MovieDetailViewModel.kt:101-108 | on a screen in sync with the repository, toggling twice gives back exactly the watchlist it started from |
| MovieDetail.ToggleOnUnknownMembershipAdds | app/src/main/java/me/aikovdp/dionysus/ui/screens/movie/MovieDetailViewModel.kt:101-108 | before the first emission, and after a watchlist-flow failure, a toggle adds the movie |
| MovieDetail.MovieDetailViewModel.constructor | app/src/main/java/me/aikovdp/dionysus/ui/screens/movie/MovieDetailViewModel.kt:35-46 | a new view model holds its movie id and repositories, an empty message slot, a cleared loading flag and the initial state |
| MovieDetail.MovieDetailViewModel.Emit | app/src/main/java/me/aikovdp/dionysus/ui/screens/movie/MovieDetailViewModel.kt:60-83 | one emission sets the current state to the combined state of the latest inputs |
| MovieDetail.MovieDetailViewModel.ToggleInWatchlist | app/src/main/java/me/aikovdp/dionysus/ui/screens/movie/MovieDetailViewModel.kt:101-109 | the watchlist becomes the toggled watchlist for the current state; the diary and the view model are unchanged |
| MovieDetail.MovieDetailViewModel.AddToWatchlist | app/src/main/java/me/aikovdp/dionysus/ui/screens/movie/MovieDetailViewModel.kt:111-120 | a null timestamp throws IllegalArgumentException and leaves the diary unchanged; otherwise exactly one entry (movie id, UTC day of the timestamp) is appended; the watchlist is unchanged |
| Data.WatchlistRepository.constructor | app/src/test/java/me/aikovdp/dionysus/data/LocalWatchlistRepositoryTest.kt:44-49 | a new watchlist is empty |
| Data.WatchlistRepository.CreateEntry | app/src/test/java/me/aikovdp/dionysus/data/LocalWatchlistRepositoryTest.kt:51-58 | creating an entry adds the movie id and nothing else |
| Data.WatchlistRepository.RemoveEntry | app/src/test/java/me/aikovdp/dionysus/data/LocalWatchlistRepositoryTest.kt:60-70 | removing an entry deletes the movie id and nothing else, so create then remove on a new watchlist leaves it empty |
| Data.DiaryRepository.constructor | app/src/main/java/me/aikovdp/dionysus/ui/screens/movie/MovieDetailViewModel.kt:39 | a diary repository created in the model holds no entry; the view model receives its diary already built (line 39) and accepts one in any state |
| Data.DiaryRepository.CreateEntry | app/src/main/java/me/aikovdp/dionysus/ui/screens/movie/MovieDetailViewModel.kt:117-119 | logging a viewing appends one (movie id, day) entry and keeps the earlier ones |

## Left out

- Flow machinery (`MutableStateFlow`, `combine`, `stateIn`, `WhileUiSubscribed`): the
  state flow is a field that `Emit` sets. `Emit` takes the latest value of the movie
  flow and the watchlist flow. Subscription lifecycle is not modelled. Neither is the fact
  that `catch` ends a failed flow, so its error value stays the latest one.
- Coroutines: the block given to `viewModelScope.launch` starts at once on the main thread,
  so `toggleInWatchlist` reads the state current at the call, as the model does. The
  repository calls inside it (`removeEntry`, `createEntry` and the diary's `createEntry`)
  suspend, so their writes may finish after the action returns. The model finishes them
  before it returns.
- `Log.e`, Hilt injection, the `SavedStateHandle` lookup and the `toInt()` parse of the
  movie id (which may throw). These are platform calls. The movie id is a constructor
  argument.
- Converting the epoch day to year, month and day: that is java.time's calendar
  arithmetic, which is not part of this model. The diary entry records the epoch day.
- The repository implementations are not part of this model. That covers the Room DAOs,
  fetching a missing movie before inserting, the insertion timestamp, and the ordering and
  observation of entry lists. Each repository is its abstract set or sequence.
- The concrete numeric values of the two string resources.
- `WatchlistScreen.kt`, `DionysusNavGraph.kt` and `build.gradle.kts`: UI, navigation and
  build configuration.
