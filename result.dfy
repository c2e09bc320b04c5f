/** Outcomes of the application's own operations (app/utils/result.server.ts), and the
    "row or null" answer of a table lookup. */
module ResultServer {

  /** `{ ok: true, data }` or `{ ok: false, error }`. */
  datatype Result<+T, +U> = Ok(data: T) | Err(error: U)

  /** A row, or `null` when no row matches. */
  datatype Option<+T> = None | Some(value: T)
}
