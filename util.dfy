/** The tri-state wrapper a view model uses to merge a fallible flow into its UI state. */
module Util {

  /** A loading signal, an error carrying a string-resource id, or the data an operation produced. */
  datatype Async<+T> = Loading | Error(errorMessage: int) | Success(data: T)
}
