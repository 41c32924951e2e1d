/** The error vocabulary of the manager.  Every fallible step of the program
    returns `Result<T>`; each `Error` constructor stands for one of the
    messages or wrapped library errors that the Rust code propagates with `?`. */
module Results {

  /** A value that may be absent.  For text captured from a child process,
      `None` stands for bytes that are not valid UTF-8. */
  datatype Option<+T> = None | Some(value: T)

  /** The targets of the filesystem and process calls that can fail. */
  datatype IoOp =
    | CreateDir(path: string)    // create_dir
    | CreateFile(path: string)   // File::create
    | WriteFile(path: string)    // write! into the created file
    | ReadFile(path: string)     // read_to_string (a missing file is the usual cause)
    | Spawn(program: string)     // spawning or waiting for a child process

  /** The kinds of `ParseIntError` that parsing a `u32` can report. */
  datatype IntErrorKind = Empty | InvalidDigit | PosOverflow

  datatype Error =
    | MissingHome                                // "Missing HOME variable"
    | Io(op: IoOp)                               // an I/O error, propagated as is
    | InvalidUtf8                                // captured output is not UTF-8
    | PgConfigFailed                             // "failed to run pg_config"
    | UnsupportedVersion                         // "Unsupported Postgres version"
    | DbStillExists                              // "Cannot create a new DB, one still exists."
    | ToolFailed(program: string, stderr: string) // "Failed to run {program}: '{stderr}'"
    | RemoveFailed(path: string)                 // "Failed to remove {config_dir}"
    | ParseInt(kind: IntErrorKind)               // the port file does not hold a u32

  /** anyhow::Result: a value or the error that stopped the computation. */
  datatype Result<+T> = Ok(value: T) | Err(error: Error)
}
