/** The shape of the answers every repository backend gives to a lookup. */
module Repository {
  import opened Errors

  /** A lookup's `(result, found, err)` triple. */
  datatype Lookup<T> = Lookup(result: T, found: bool, err: Option<Error>)
}
