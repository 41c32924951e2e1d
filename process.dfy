/** Child processes as `run` sees them: a command line, and what came back
    when it was launched.  Spawning and waiting are not performed; their
    outcomes are given. */
module Process {
  import opened Results

  /** A program name and its argument list, as passed to `Command::new(..).args(..)`. */
  datatype Command = Command(program: string, args: seq<string>)

  /** What `run` learns from a child it started with `spawn()`.  No stream
      is piped, so the child writes straight to the terminal and
      `wait_with_output` hands back empty stdout and stderr: only the exit
      status is left.  `CouldNotRun` is an I/O error from spawning or
      waiting. */
  datatype RunOutcome = CouldNotRun | Exited(success: bool)

  /** The child ran and exited with status zero. */
  predicate Succeeded(o: RunOutcome) {
    o.Exited? && o.success
  }

  /** The bytes `wait_with_output` returns for a stream that was not piped. */
  const UNPIPED: string := ""

  /** The result `run(program, args)` returns for an outcome: a zero exit is
      success, a non-zero exit is "Failed to run" the program, quoting its
      captured stderr, which is empty.  Decoding the empty captures as UTF-8
      cannot fail. */
  function RunStatus(program: string, o: RunOutcome): (r: Result<()>)
    ensures r.Ok? <==> Succeeded(o)
    ensures o.CouldNotRun? ==> r == Err(Io(Spawn(program)))
    ensures o.Exited? && !o.success ==> r == Err(ToolFailed(program, ""))
  {
    match o
    case CouldNotRun => Err(Io(Spawn(program)))
    case Exited(success) =>
      if success then Ok(()) else Err(ToolFailed(program, UNPIPED))
  }

  /** As written, the message of a failed tool never quotes what the tool
      printed: for every outcome, the quoted stderr is empty. */
  lemma QuotedStderrAlwaysEmpty(program: string, o: RunOutcome)
    ensures RunStatus(program, o).Err? && RunStatus(program, o).error.ToolFailed? ==>
              RunStatus(program, o).error == ToolFailed(program, "")
  {
  }

  /** What a child started with `.stderr(Stdio::piped())` gives back: the
      exit status and its captured stderr, `None` when those bytes are not
      UTF-8.  Stdout stays on the terminal, so an interactive `psql` keeps
      working. */
  datatype PipedOutcome = PipedCouldNotRun | PipedExited(success: bool, stderr: Option<string>)

  /** The same child seen through `run` as written: only its status. */
  function StatusOf(o: PipedOutcome): RunOutcome {
    match o
    case PipedCouldNotRun => CouldNotRun
    case PipedExited(success, _) => Exited(success)
  }

  /** `run` with stderr piped: a non-zero exit is "Failed to run" the
      program, quoting what the tool wrote to stderr. */
  function RunStatusPiped(program: string, o: PipedOutcome): (r: Result<()>)
    ensures r.Ok? <==> o.PipedExited? && o.success
    ensures o.PipedCouldNotRun? ==> r == Err(Io(Spawn(program)))
    ensures o.PipedExited? && !o.success && o.stderr.Some? ==> r == Err(ToolFailed(program, o.stderr.value))
    ensures o.PipedExited? && !o.success && o.stderr.None? ==> r == Err(InvalidUtf8)
  {
    match o
    case PipedCouldNotRun => Err(Io(Spawn(program)))
    case PipedExited(success, stderr) =>
      if success then Ok(())
      else if stderr.Some? then Err(ToolFailed(program, stderr.value))
      else Err(InvalidUtf8)
  }

  /** Piping stderr changes only the message: both versions succeed on the
      same outcomes and report a failed spawn alike, and a tool that writes
      something to stderr is reported differently. */
  lemma PipedAgreesOnStatus(program: string, o: PipedOutcome)
    ensures RunStatusPiped(program, o).Ok? <==> RunStatus(program, StatusOf(o)).Ok?
    ensures o.PipedCouldNotRun? ==> RunStatusPiped(program, o) == RunStatus(program, StatusOf(o))
    ensures o.PipedExited? && !o.success && o.stderr.Some? && o.stderr.value != "" ==>
              RunStatusPiped(program, o) != RunStatus(program, StatusOf(o))
  {
  }
}
