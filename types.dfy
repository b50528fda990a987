/**
 * Value types shared by the whole provisioning core: byte strings, paths,
 * the Option/Result wrappers, the error values the core returns, and
 * prepconf.Config, the caller's choice of output and TLS file paths.
 */
module Types {

  type Byte = bv8
  type Bytes = seq<Byte>
  type Path = string

  datatype Option<+T> = None | Some(value: T)

  datatype Result<+T, +E> = Success(value: T) | Failure(error: E)

  /** The filesystem call a path error comes from (the Op of Go's *os.PathError). */
  datatype FsOp = StatOp | OpenOp | WriteOp | CloseOp

  /**
   * Every error value the core returns. The core creates only InvalidMode
   * and the path errors; the others stand for whatever the collaborators
   * (key derivation, the library defaults, the JSON encoder, certificate
   * generation) hand back, and are passed through unchanged.
   */
  datatype Error =
    | InvalidMode                        // boot.ErrInvalidMode
    | PathError(op: FsOp, path: Path)
    | KeyDerivationError(detail: nat)
    | LibraryError(detail: nat)
    | SerialisationError(detail: nat)
    | CertificateError(detail: nat)

  /** prepconf.Config: where each kind of configuration file is written, and the TLS material. */
  datatype Config = Config(visorConf: Path, hypervisorConf: Path, tlsCert: Path, tlsKey: Path)
}
