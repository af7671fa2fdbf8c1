/** Optional values and error results shared by every module. */
module Results {

  datatype Option<+T> = None | Some(value: T)

  /** The sentinel errors of the repository, plus the ones the database raises itself. */
  datatype Error =
    | NotFound
    | StaleVersion
    | Conflict
    | Invalid
    | Duplicate    // a unique constraint rejected an insert
    | Unavailable  // begin, statement or commit failed

  datatype Result<+T> = Success(value: T) | Failure(error: Error)
}
