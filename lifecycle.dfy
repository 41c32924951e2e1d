/** The `PgTemp` instance lifecycle: `init`, `write_port`, `read_port`,
    `clean_up`, `create_folders`, `new_db`, `delete`, `conn_string` and
    `connect`, together with the free functions `run` and
    `get_postgres_version` that they call. */
module Lifecycle {
  import opened Results
  import opened Process
  import opened PortMarker
  import opened PostgresVersion
  import opened Machine

  /** How the operating system answers `File::create` followed by `write!`. */
  datatype FileWrite = WriteOk | CreateFails | WriteFails

  /** How `remove_dir_all` of the config dir ends.  When it fails part way,
      the config dir itself remains and each entry inside it may or may not
      have been removed already. */
  datatype Removal = RemovalSucceeds | RemovalFails(portSurvives: bool, dataSurvives: bool)

  /** How the outside world answers during one run of the program: the
      outcome of each external tool the run may launch (`pgCtl` is `pg_ctl
      start` in `new_db` and `pg_ctl stop` in `delete`), and whether
      `create_dir`, the port file write and the tree removal succeed. */
  datatype World = World(
    pgConfig: ProbeOutcome,
    initdb: RunOutcome,
    pgCtl: RunOutcome,
    psql: RunOutcome,
    mkdirFails: bool,
    portWrite: FileWrite,
    removal: Removal)

  /** `format!("{home_dir}/.pgtemp")`. */
  function ConfigDirOf(home: string): string {
    home + "/.pgtemp"
  }

  function InitDb(db: string): Command {
    Command("initdb", ["-D", db])
  }

  function PgCtlStart(db: string, port: u32): Command {
    Command("pg_ctl", ["-D", db, "-o", "-p " + Decimal(port) + " -k /tmp", "start"])
  }

  function PgCtlStop(db: string): Command {
    Command("pg_ctl", ["-D", db, "stop"])
  }

  function Psql(conn: string): Command {
    Command("psql", [conn])
  }

  /** The text `conn_string` builds around the port. */
  function ConnectionString(port: u32): string {
    "postgresql://localhost:" + Decimal(port) + "/postgres"
  }

  /** The endpoint of an instance created on port 5432. */
  lemma ConnectionString5432()
    ensures ConnectionString(5432) == "postgresql://localhost:5432/postgres"
  {
  }

  /** What remains of the host after `clean_up`: nothing changes when the
      config dir is absent; a successful `remove_dir_all` leaves no config
      dir, no port file and no data dir; a failed one only removes.  The
      server is not touched either way. */
  function AfterCleanUp(s: HostState, removal: Removal): (t: HostState)
    ensures s.Consistent() ==> t.Consistent()
    ensures t.serverRunning == s.serverRunning
    ensures !s.configDir ==> t == s
    ensures s.configDir && removal.RemovalSucceeds? ==> !t.configDir && t.portFile.None? && !t.dataDir
    ensures s.configDir && removal.RemovalFails? ==> t.configDir
    ensures t.portFile.Some? ==> t.portFile == s.portFile
    ensures t.dataDir ==> s.dataDir
    ensures t.configDir ==> s.configDir
  {
    if !s.configDir then s
    else
      match removal
      case RemovalSucceeds => s.(configDir := false, portFile := None, dataDir := false)
      case RemovalFails(keepPort, keepData) =>
        s.(portFile := if keepPort then s.portFile else None, dataDir := s.dataDir && keepData)
  }

  /** The result of `new_db`'s `setup` closure: `initdb`, and only if it
      succeeded, `pg_ctl start`; the first error is the closure's error. */
  function SetupStatus(w: World): (r: Result<()>)
    ensures r.Ok? <==> RunStatus("initdb", w.initdb).Ok? && RunStatus("pg_ctl", w.pgCtl).Ok?
    ensures RunStatus("initdb", w.initdb).Err? ==> r == RunStatus("initdb", w.initdb)
  {
    var i := RunStatus("initdb", w.initdb);
    if i.Err? then i else RunStatus("pg_ctl", w.pgCtl)
  }

  /** `run(program, args)`: launch the command and map its exit status. */
  method Run(host: Host, cmd: Command, o: RunOutcome) returns (r: Result<()>)
    requires host.Valid()
    modifies host
    ensures host.Valid()
    ensures host.launched == old(host.launched) + [cmd]
    ensures host.state == Effect(cmd, o, old(host.state))
    ensures r == RunStatus(cmd.program, o)
  {
    host.Execute(cmd, o);
    r := RunStatus(cmd.program, o);
  }

  /** `get_postgres_version()`: launch `pg_config --version` and classify. */
  method GetPostgresVersion(host: Host, o: ProbeOutcome) returns (r: Result<u8>)
    requires host.Valid()
    modifies host
    ensures host.Valid()
    ensures host.launched == old(host.launched) + [PG_CONFIG_VERSION]
    ensures host.state == old(host.state)
    ensures r == VersionOf(o)
  {
    host.Execute(PG_CONFIG_VERSION, ProbeStatus(o));
    r := VersionOf(o);
  }

  /** The state `new_db` has produced by the time `setup` runs: the port
      file holds the port. */
  ghost function Written(s: HostState, port: u32): HostState {
    s.(portFile := Some(Decimal(port)))
  }

  /** `new_db` gets as far as `setup`: the version is supported, no data
      dir exists and the port file was written. */
  ghost predicate ReachesSetup(s: HostState, w: World) {
    VersionOf(w.pgConfig).Ok? && !s.dataDir && s.configDir && w.portWrite == WriteOk
  }

  class PgTemp {
    const configDir: string
    const host: Host

    constructor (configDir: string, host: Host)
      ensures this.configDir == configDir && this.host == host
    {
      this.configDir := configDir;
      this.host := host;
    }

    function PortPath(): string {
      configDir + "/port"
    }

    function DbPath(): string {
      configDir + "/db"
    }

    /** `PgTemp::init`: resolve the config dir from HOME and create it if it
        is absent.  With the directory present nothing changes, so running
        it again is harmless. */
    static method Init(home: Option<string>, host: Host, w: World) returns (r: Result<PgTemp>)
      requires host.Valid()
      modifies host
      ensures host.Valid() && host.launched == old(host.launched)
      ensures r.Ok? <==> home.Some? && (old(host.state.configDir) || !w.mkdirFails)
      ensures r.Ok? ==> fresh(r.value) && r.value.host == host
                        && r.value.configDir == ConfigDirOf(home.value)
                        && host.state == old(host.state).(configDir := true)
      ensures old(host.state.configDir) ==> host.state == old(host.state)
      ensures home.None? ==> r == Err(MissingHome) && host.state == old(host.state)
      ensures home.Some? && !old(host.state.configDir) && w.mkdirFails ==>
                r == Err(Io(CreateDir(ConfigDirOf(home.value)))) && host.state == old(host.state)
    {
      if home.None? {
        return Err(MissingHome);
      }
      var configDir := ConfigDirOf(home.value);
      if !host.state.configDir {
        if w.mkdirFails {
          return Err(Io(CreateDir(configDir)));
        }
        host.state := host.state.(configDir := true);
      }
      var t := new PgTemp(configDir, host);
      r := Ok(t);
    }

    /** `read_port`: the port file's text with trailing whitespace cut,
        parsed as a u32; a missing file is an I/O error. */
    function ReadPort(): (r: Result<u32>)
      reads host
      ensures host.state.portFile.None? ==> r == Err(Io(ReadFile(PortPath())))
      ensures host.state.portFile.Some? ==> (r.Ok? <==> IsU32Text(TrimEnd(host.state.portFile.value)))
    {
      match host.state.portFile
      case None => Err(Io(ReadFile(PortPath())))
      case Some(text) => ParsePortText(text)
    }

    /** `write_port`: create (or truncate) the port file and write the port
        in decimal, without a newline.  `File::create` fails when the config
        dir is absent; a failed write leaves the file created and empty. */
    method WritePort(port: u32, write: FileWrite) returns (r: Result<()>)
      requires host.Valid()
      modifies host
      ensures host.Valid() && host.launched == old(host.launched)
      ensures r.Ok? <==> old(host.state.configDir) && write == WriteOk
      ensures r.Ok? ==> host.state == old(host.state).(portFile := Some(Decimal(port)))
      ensures !old(host.state.configDir) || write == CreateFails ==>
                r == Err(Io(CreateFile(PortPath()))) && host.state == old(host.state)
      ensures old(host.state.configDir) && write == WriteFails ==>
                r == Err(Io(WriteFile(PortPath()))) && host.state == old(host.state).(portFile := Some(""))
    {
      if !host.state.configDir || write == CreateFails {
        return Err(Io(CreateFile(PortPath())));
      }
      host.state := host.state.(portFile := Some(""));
      if write == WriteFails {
        return Err(Io(WriteFile(PortPath())));
      }
      host.state := host.state.(portFile := Some(Decimal(port)));
      r := Ok(());
    }

    /** `clean_up`: remove the whole config dir if it exists. */
    method CleanUp(removal: Removal) returns (r: Result<()>)
      requires host.Valid()
      modifies host
      ensures host.Valid() && host.launched == old(host.launched)
      ensures host.state == AfterCleanUp(old(host.state), removal)
      ensures r.Ok? <==> !old(host.state.configDir) || removal.RemovalSucceeds?
      ensures r.Err? ==> r.error == RemoveFailed(configDir)
      // a successful clean_up leaves neither a port file nor a data dir
      ensures r.Ok? ==> host.state.portFile.None? && !host.state.dataDir
    {
      if !host.state.configDir {
        return Ok(());
      }
      host.state := AfterCleanUp(host.state, removal);
      if removal.RemovalFails? {
        return Err(RemoveFailed(configDir));
      }
      r := Ok(());
    }

    /** `create_folders(&db_path)`: create the parent of the data dir, which
        is the config dir, only when it is missing. */
    method CreateFolders(mkdirFails: bool) returns (r: Result<()>)
      requires host.Valid()
      modifies host
      ensures host.Valid() && host.launched == old(host.launched)
      ensures old(host.state.configDir) ==> r == Ok(()) && host.state == old(host.state)
      ensures !old(host.state.configDir) && mkdirFails ==>
                r == Err(Io(CreateDir(configDir))) && host.state == old(host.state)
      ensures !old(host.state.configDir) && !mkdirFails ==>
                r == Ok(()) && host.state == old(host.state).(configDir := true)
    {
      if !host.state.configDir {
        if mkdirFails {
          return Err(Io(CreateDir(configDir)));
        }
        host.state := host.state.(configDir := true);
      }
      r := Ok(());
    }

    /** `new_db`'s `setup` closure: `initdb`, then `pg_ctl start` only if
        `initdb` succeeded. */
    method Setup(port: u32, w: World) returns (r: Result<()>)
      requires host.Valid()
      modifies host
      ensures host.Valid()
      ensures r == SetupStatus(w)
      ensures RunStatus("initdb", w.initdb).Err? ==>
                host.launched == old(host.launched) + [InitDb(DbPath())]
                && host.state == Effect(InitDb(DbPath()), w.initdb, old(host.state))
      ensures RunStatus("initdb", w.initdb).Ok? ==>
                host.launched == old(host.launched) + [InitDb(DbPath()), PgCtlStart(DbPath(), port)]
                && host.state == Effect(PgCtlStart(DbPath(), port), w.pgCtl,
                                        Effect(InitDb(DbPath()), w.initdb, old(host.state)))
    {
      r := Run(host, InitDb(DbPath()), w.initdb);
      if r.Err? {
        return;
      }
      r := Run(host, PgCtlStart(DbPath(), port), w.pgCtl);
    }

    /** `new_db(port)`.  In order: the version probe, the refusal when a data
        dir exists, writing the port file, `create_folders`, and `setup`,
        whose failure removes the whole config dir (any error of that
        removal is dropped) before the setup error is returned. */
    method NewDb(port: u32, w: World) returns (r: Result<()>)
      requires host.Valid()
      modifies host
      ensures host.Valid()
      ensures r.Ok? <==> ReachesSetup(old(host.state), w) && SetupStatus(w).Ok?
      // the version gate comes first: nothing changes and nothing else runs
      ensures VersionOf(w.pgConfig).Err? ==>
                r == Err(VersionOf(w.pgConfig).error)
                && host.state == old(host.state)
                && host.launched == old(host.launched) + [PG_CONFIG_VERSION]
      // an existing data dir is refused before the port file is written
      ensures VersionOf(w.pgConfig).Ok? && old(host.state.dataDir) ==>
                r == Err(DbStillExists)
                && host.state == old(host.state)
                && host.launched == old(host.launched) + [PG_CONFIG_VERSION]
      // a failed port write runs no tool and cleans nothing up
      ensures VersionOf(w.pgConfig).Ok? && !old(host.state.dataDir) && !ReachesSetup(old(host.state), w) ==>
                host.launched == old(host.launched) + [PG_CONFIG_VERSION]
                && (if old(host.state.configDir) && w.portWrite == WriteFails
                    then r == Err(Io(WriteFile(PortPath())))
                         && host.state == old(host.state).(portFile := Some(""))
                    else r == Err(Io(CreateFile(PortPath())))
                         && host.state == old(host.state))
      // success: initdb then pg_ctl start ran, the port file holds the port
      ensures r.Ok? ==>
                host.launched == old(host.launched) + [PG_CONFIG_VERSION, InitDb(DbPath()), PgCtlStart(DbPath(), port)]
                && host.state == old(host.state).(portFile := Some(Decimal(port)), dataDir := true, serverRunning := true)
                && ReadPort() == Ok(port)
                && ConnString() == Ok(ConnectionString(port))
      // failed initdb: pg_ctl start is never run, the tree is cleaned up
      ensures ReachesSetup(old(host.state), w) && RunStatus("initdb", w.initdb).Err? ==>
                r == RunStatus("initdb", w.initdb)
                && host.launched == old(host.launched) + [PG_CONFIG_VERSION, InitDb(DbPath())]
                && host.state == AfterCleanUp(Written(old(host.state), port), w.removal)
      // failed pg_ctl start after initdb: the tree is cleaned up
      ensures ReachesSetup(old(host.state), w) && RunStatus("initdb", w.initdb).Ok? && RunStatus("pg_ctl", w.pgCtl).Err? ==>
                r == RunStatus("pg_ctl", w.pgCtl)
                && host.launched == old(host.launched) + [PG_CONFIG_VERSION, InitDb(DbPath()), PgCtlStart(DbPath(), port)]
                && host.state == AfterCleanUp(Written(old(host.state), port).(dataDir := true), w.removal)
      // rollback: when the removal succeeds no port file and no data dir remain
      ensures ReachesSetup(old(host.state), w) && SetupStatus(w).Err? && w.removal.RemovalSucceeds? ==>
                !host.state.configDir && host.state.portFile.None? && !host.state.dataDir
                && ReadPort() == Err(Io(ReadFile(PortPath())))
    {
      var version := GetPostgresVersion(host, w.pgConfig);
      if version.Err? {
        return Err(version.error);
      }
      if host.state.dataDir {
        return Err(DbStillExists);
      }
      r := WritePort(port, w.portWrite);
      if r.Err? {
        return;
      }
      r := CreateFolders(w.mkdirFails);
      if r.Err? {
        return;
      }
      r := Setup(port, w);
      if r.Err? {
        var _ := CleanUp(w.removal);
        return;
      }
      PortRoundTrip(port);
    }

    /** `delete`: the version probe, then `pg_ctl stop`, and only after a
        successful stop the removal of the config dir.  `pg_ctl stop` is run
        whether or not an instance exists. */
    method Delete(w: World) returns (r: Result<()>)
      requires host.Valid()
      modifies host
      ensures host.Valid()
      ensures VersionOf(w.pgConfig).Err? ==>
                r == Err(VersionOf(w.pgConfig).error)
                && host.state == old(host.state)
                && host.launched == old(host.launched) + [PG_CONFIG_VERSION]
      ensures VersionOf(w.pgConfig).Ok? ==>
                host.launched == old(host.launched) + [PG_CONFIG_VERSION, PgCtlStop(DbPath())]
      // a failed stop is returned and the config dir, port file and data dir survive
      ensures VersionOf(w.pgConfig).Ok? && RunStatus("pg_ctl", w.pgCtl).Err? ==>
                r == RunStatus("pg_ctl", w.pgCtl)
                && host.state == old(host.state)
      // after a successful stop the config dir is removed
      ensures VersionOf(w.pgConfig).Ok? && RunStatus("pg_ctl", w.pgCtl).Ok? ==>
                host.state == AfterCleanUp(old(host.state).(serverRunning := false), w.removal)
                && (r.Ok? <==> !old(host.state.configDir) || w.removal.RemovalSucceeds?)
                && (r.Err? ==> r.error == RemoveFailed(configDir))
      // a successful delete leaves no instance behind
      ensures r.Ok? ==> host.state.portFile.None? && !host.state.dataDir && !host.state.serverRunning
    {
      var version := GetPostgresVersion(host, w.pgConfig);
      if version.Err? {
        return Err(version.error);
      }
      var dbPath := DbPath();
      r := Run(host, PgCtlStop(dbPath), w.pgCtl);
      if r.Err? {
        return;
      }
      r := CleanUp(w.removal);
    }

    /** `conn_string`: the endpoint text around the port read back from the
        port file; the read's error otherwise. */
    function ConnString(): (r: Result<string>)
      reads host
      ensures r.Ok? <==> ReadPort().Ok?
      ensures r.Ok? ==> r.value == ConnectionString(ReadPort().value)
      ensures r.Err? ==> r.error == ReadPort().error
    {
      match ReadPort()
      case Ok(port) => Ok(ConnectionString(port))
      case Err(e) => Err(e)
    }

    /** `connect`: `psql` with the connection string as its one argument,
        launched only when the connection string could be built. */
    method Connect(w: World) returns (r: Result<()>)
      requires host.Valid()
      modifies host
      ensures host.Valid() && host.state == old(host.state)
      ensures old(ConnString()).Err? ==>
                r == Err(old(ConnString()).error) && host.launched == old(host.launched)
      ensures old(ConnString()).Ok? ==>
                r == RunStatus("psql", w.psql)
                && host.launched == old(host.launched) + [Psql(old(ConnString()).value)]
    {
      var conn := ConnString();
      if conn.Err? {
        return Err(conn.error);
      }
      r := Run(host, Psql(conn.value), w.psql);
    }
  }
}
