/** The outcome types: the variants of the vault's error enum and the wrappers that carry them.
    The source propagates I/O failures with `?`, which hands on the bare `std::io::Error` rather
    than a `VaultError`; the model reports each such failure as `IoError(kind)`. */
module Errors {
  import opened Bytes

  /** The kinds of I/O failure the model produces: a missing file and a read that hit end of input. */
  datatype IoErrorKind = NotFound | UnexpectedEof

  /** One constructor per variant of the source's error enum, with the same payloads
      (paths and messages as strings, the offending header bytes as bytes). */
  datatype VaultError =
    | OutputExists(path: string)
    | InputNotFound(path: string)
    | FileReadError(message: string)
    | FileWriteError(message: string)
    | EncryptionError(message: string)
    | DecryptionError(message: string)
    | InvalidFormat(message: string)
    | UnsupportedVersion(version: byte)
    | UnsupportedAlgorithm(algorithm: byte)
    | PasswordRequired
    | AuthenticationFailed
    | KdfError(message: string)
    | IoError(kind: IoErrorKind)

  datatype Option<+T> = None | Some(value: T)

  datatype Result<+T> = Ok(value: T) | Err(error: VaultError)
}
