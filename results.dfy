/** Failure-carrying values shared by every component: an absent value, and a result that is
    either a value or the error (exception) the modelled function raises instead. */
module Results {

  datatype Option<+T> = None | Some(value: T)

  datatype Result<+T, +E> = Success(value: T) | Failure(error: E)
}
