/** Outcome datatypes shared by every component. */
module Wrappers {

  datatype Option<+T> = None | Some(value: T)

  datatype Result<+T, +E> = Ok(value: T) | Err(error: E)

  /** How the commit of a transaction ends; a commit that landed may still be reported as failed. */
  datatype Commit = Committed | RolledBack | CommittedUnreported
}
