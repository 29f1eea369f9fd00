/** Optional values and results with an error, used wherever the dataset
    code either returns something or raises. */
module Base {

  datatype Option<T> = None | Some(value: T)

  /** `Ok` is a normal return; `Err` is an exception raised (or propagated)
      by the Python code. */
  datatype Result<T, E> = Ok(value: T) | Err(error: E)

  /** The exceptions a subject load can end in. `InvalidSubject` is the
      datasets' own `ValueError`; `IndexOutOfRange` and `BroadcastMismatch`
      are numpy's `IndexError` and broadcasting `ValueError`;
      `ChannelCountMismatch` is the `ValueError` MNE raises when the number
      of data rows differs from the number of channel names. */
  datatype LoadError =
    | InvalidSubject
    | IndexOutOfRange
    | BroadcastMismatch
    | ChannelCountMismatch
}
