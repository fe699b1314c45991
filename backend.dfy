/**
 * The shape of what a database query hands back to the pages: the data (a
 * row or a list of rows, or null) and an error code (or null).
 */
module Backend {
  import opened Wrappers

  datatype Response<T> = Response(data: Option<T>, error: Option<string>)

  /** The "no rows returned" code of a `.single()` query; callers do not treat it as a failure. */
  const NoRows: string := "PGRST116"

  /** The caller's test `error && error.code !== 'PGRST116'`. */
  predicate Failed<T>(r: Response<T>) {
    r.error.Some? && r.error.value != NoRows
  }
}
