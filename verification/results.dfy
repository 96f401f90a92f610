/** `Option` is what a decoder returns: `None` when it rejects its input.
    `Result` is what the hash returns: a digest, or the error it reports. */
module Results {

  datatype Option<+T> = None | Some(value: T)

  datatype Result<+R, +E> = Success(value: R) | Failure(error: E)
}
