/**
 * The remote data gateway as the client sees it: every query or mutation
 * ends in an outcome that the model receives as a parameter.
 */
module Gateway {

  /** The `{ data, error }` pair of a gateway call: a returned payload, or an error. */
  datatype Reply<T> = Ok(value: T) | Err

  /** How the promise of an awaited callback settles. */
  datatype Settlement = Resolved | Rejected
}
