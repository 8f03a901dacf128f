/** Option and Result values, and the three outcomes a Redux async thunk reports. */
module Wrappers {

  /** A value that may be absent (`null` or `undefined` in the application). */
  datatype Option<+T> = None | Some(value: T)

  /** The outcome of a call that can fail: a server reply or the error it raised. */
  datatype Result<+R, +E> = Success(value: R) | Failure(error: E)

  /**
   * The actions an async thunk dispatches: `pending` when it starts,
   * `fulfilled` with the value it returned, or `rejected` with the message
   * it passed to `rejectWithValue`.
   */
  datatype Phase<+T> = Pending | Fulfilled(payload: T) | Rejected(message: string)
}
