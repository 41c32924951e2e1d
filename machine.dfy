/** The part of the machine the manager touches: the entries under its
    instance directory `<home>/.pgtemp`, whether a server runs on the data
    directory, and the commands launched so far.  The real filesystem and
    processes are replaced by this state; each operation is told, through
    its arguments, how the outside world answers. */
module Machine {
  import opened Results
  import opened Process

  /** `configDir`: `<home>/.pgtemp` exists.  `portFile`: the contents of
      `<home>/.pgtemp/port`, if that file exists.  `dataDir`:
      `<home>/.pgtemp/db` exists.  `serverRunning`: a server runs on that
      data directory. */
  datatype HostState = HostState(configDir: bool, portFile: Option<string>, dataDir: bool, serverRunning: bool)
  {
    /** The port file and the data directory live inside the config dir. */
    predicate Consistent() {
      (portFile.Some? || dataDir) ==> configDir
    }
  }

  /** The last argument of a command line, the subcommand of `pg_ctl`. */
  function LastArg(cmd: Command): string {
    if cmd.args == [] then "" else cmd.args[|cmd.args| - 1]
  }

  /** What a command does to the host.  Only a command that exits with
      status zero changes anything: `initdb` creates the data directory
      (and any missing parent), `pg_ctl ... start` starts the server and
      `pg_ctl ... stop` stops it.  Every command the manager issues
      addresses its own data directory, so paths are not consulted. */
  function Effect(cmd: Command, o: RunOutcome, s: HostState): (t: HostState)
    ensures t.portFile == s.portFile
    ensures s.Consistent() ==> t.Consistent()
    ensures !Succeeded(o) ==> t == s
    ensures t.dataDir != s.dataDir || t.configDir != s.configDir ==> cmd.program == "initdb"
  {
    if !Succeeded(o) then s
    else if cmd.program == "initdb" then s.(configDir := true, dataDir := true)
    else if cmd.program == "pg_ctl" && LastArg(cmd) == "start" then s.(serverRunning := true)
    else if cmd.program == "pg_ctl" && LastArg(cmd) == "stop" then s.(serverRunning := false)
    else s
  }

  class Host {
    var state: HostState
    /** Every command the manager has tried to run, oldest first. */
    var launched: seq<Command>

    ghost predicate Valid()
      reads this
    {
      state.Consistent()
    }

    constructor (initial: HostState)
      requires initial.Consistent()
      ensures Valid() && state == initial && launched == []
    {
      state := initial;
      launched := [];
    }

    /** Launch `cmd`, which ends with status `o`. */
    method Execute(cmd: Command, o: RunOutcome)
      requires Valid()
      modifies this
      ensures Valid()
      ensures launched == old(launched) + [cmd]
      ensures state == Effect(cmd, o, old(state))
    {
      launched := launched + [cmd];
      state := Effect(cmd, o, state);
    }
  }
}
