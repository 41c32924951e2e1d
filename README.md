# pgtemp lifecycle model

pgtemp manages a single local, throw-away PostgreSQL instance. The instance
directory is `<home>/.pgtemp`. It holds a port marker `port` and a data
directory `db`. This project models the `PgTemp` state machine of
`src/main.rs` in Dafny and proves its contracts:

- `init` creates the instance directory.
- `new_db(port)` probes the PostgreSQL version, refuses to run when a data
  directory exists, writes the port, runs `initdb` and `pg_ctl start`, and
  removes the whole directory when either tool fails.
- `delete` stops the server and only then removes the directory.
- `conn_string` and `connect` read the port back and build
  `postgresql://localhost:<port>/postgres`.

## Structure

- `results.dfy` (`Results`): the `Result`/`Option` types and one `Error`
  constructor per message or wrapped error that the code propagates.
- `port_marker.dfy` (`PortMarker`): the port file's text.
  - `Decimal` models `format!("{port}")`.
  - `TrimEnd` models `str::trim_end`, with Unicode White_Space.
  - `ParseU32` models `u32::from_str`. Like the standard library, it reads
    left to right, checks each digit before it checks for overflow, and
    accepts one leading `+`.
  - A separate positional `Value` gives the meaning of the digits. The lemmas
    prove that writing then reading gives back every `u32`, that reading then
    writing gives back canonical text, and that non-numeric or out-of-range
    text is refused.
- `process.dfy` (`Process`): a command line and what `run` learns about it.
  `run` starts its child with `spawn()` and pipes nothing, so the child
  writes to the terminal and `wait_with_output` returns empty stdout and
  stderr. The outcome is therefore "could not run" or an exit status.
  `RunStatus` is `run`'s mapping of an outcome to a result. `RunStatusPiped`
  is the variant with stderr piped (see "## Findings").
- `version.dfy` (`PostgresVersion`): `get_postgres_version`. It uses
  `Command::output()`, which captures both streams, so its outcome carries
  stdout, possibly not UTF-8. Its classification is by `starts_with`.
- `machine.dfy` (`Machine`): the class `Host`. It holds the abstract state of
  the machine: whether the config dir exists, the port file's contents,
  whether the data dir exists, and whether a server runs. It also keeps a log
  of every command launched, so the contracts can state which tools ran and
  in what order. `Effect` says what a tool that exits with status zero does:
  `initdb` creates the data dir, `pg_ctl start`/`stop` start and stop the
  server.
- `lifecycle.dfy` (`Lifecycle`): the class `PgTemp`. It has the config dir
  path and the host. Its methods (`Init`, `WritePort`, `CleanUp`,
  `CreateFolders`, `Setup`, `NewDb`, `Delete`, `Connect`) change the host the
  way the Rust methods change the filesystem. Its functions (`ReadPort`,
  `ConnString`) only read the host.
- `scenarios.dfy` (`Scenarios`): several runs in a row, each `init` followed
  by one operation.
  - A second create without a delete is refused, and the port is kept.
  - A failed `initdb` leaves no port file, and a retry on another port works.
  - A failed stop keeps the instance.
  - Delete followed by create works.

A `World` value says how the outside world answers during one run. It gives
the outcome of each tool, whether `create_dir` fails, how the port file
write ends, and how `remove_dir_all` ends. Every operation receives its
`World` as a parameter. The HOME variable is an `Option<string>` parameter of
`Init`.

Where one might expect otherwise, the model follows the code:

- One might expect the version to be found anywhere in the banner. The code
  matches by prefix (`starts_with`). `PostgresVersion.EmbeddedBannerRejected`
  shows a banner that names PostgreSQL 16 after other text being refused.
- One might expect `delete` without an instance to do nothing. The code
  always runs `pg_ctl stop`, so deleting twice is not a silent success: the
  result is whatever `pg_ctl stop` reports.
- One might expect port 0 to be refused. Any `u32` is written and read back.
- One might expect a failed port write to be cleaned up. It is not: if
  `File::create` succeeded and the write then failed, an empty port file
  remains.
- One might expect `create_folders` to create the config dir when needed.
  It runs after `write_port`, which already needs the config dir, so within
  `new_db` it never changes anything. `NewDb`'s contract does not depend on
  `mkdirFails`.

## Model

| member | source | states |
|---|---|---|
| `PortMarker.Decimal` | src/main.rs:43 | the port text is non-empty decimal digits, with a leading zero only for 0 |
| `PortMarker.ValueOfDecimal` | src/main.rs:43 | the digits written for n denote n |
| `PortMarker.DecimalOfValue` | src/main.rs:29-46 | canonical digits are exactly what is written for their value (the reverse round trip) |
| `PortMarker.ParseDigitsCorrect` | src/main.rs:34 | the left-to-right digit loop with overflow checks succeeds exactly on all-digit text whose value fits in 32 bits, and returns that value |
| `PortMarker.FoldIsValue` | src/main.rs:34 | the loop's accumulation equals the positional value of the digits |
| `PortMarker.ParseU32` | src/main.rs:34-35 | `parse::<u32>` succeeds exactly on an optional '+' followed by digits whose value is below 2^32, returns the positional value, and reports Empty on empty text |
| `PortMarker.TrimEnd` | src/main.rs:33 | the result is a prefix that does not end in whitespace, and everything cut off is whitespace |
| `PortMarker.TrimEndUnique` | src/main.rs:33 | those three properties determine the trimmed text |
| `PortMarker.ParsePortText` | src/main.rs:32-35 | the port file's text is accepted exactly when its trimmed form is u32 text |
| `PortMarker.PortRoundTrip` | src/main.rs:29-46 | the text write_port writes for p is read back by read_port as p, for every u32 |
| `PortMarker.PortRoundTripPadded` | src/main.rs:32-35 | trailing whitespace after the digits does not change the port read back |
| `PortMarker.NonNumericRejected` | src/main.rs:32-35 | a character that is neither a digit nor a leading '+' makes the read fail |
| `PortMarker.OverflowRejected` | src/main.rs:34 | a number of 2^32 or more is refused, not wrapped |
| `Process.RunStatus` | src/main.rs:129-145 | run succeeds exactly on a zero exit; a spawn or wait failure is an I/O error; a non-zero exit is "Failed to run" the program with an empty quoted stderr, because nothing was piped |
| `Process.QuotedStderrAlwaysEmpty` | src/main.rs:138-140 | for every outcome, a tool failure quotes an empty stderr |
| `Process.RunStatusPiped` | src/main.rs:138-140 | with stderr piped, run succeeds exactly on a zero exit and a non-zero exit quotes the tool's stderr verbatim, or is a UTF-8 error when it does not decode |
| `Process.PipedAgreesOnStatus` | src/main.rs:129-145 | piping stderr changes neither which outcomes succeed nor the spawn error; it changes the message of a tool that wrote to stderr |
| `PostgresVersion.Classify` | src/main.rs:153-161 | a result is 14, 15 or 16 and the text starts with that version's banner; anything else is UnsupportedVersion |
| `PostgresVersion.ClassifyExact` | src/main.rs:153-161 | version v is returned exactly when the text starts with "PostgreSQL v"; UnsupportedVersion exactly when it starts with none of the three |
| `PostgresVersion.BannersExclusive` | src/main.rs:153-158 | no text starts with two banners, so the order of the tests does not matter |
| `PostgresVersion.EmbeddedBannerRejected` | src/main.rs:153-161 | a banner that is not at the start is unsupported |
| `PostgresVersion.VersionOf` | src/main.rs:147-164 | a spawn error is an I/O error; a non-zero pg_config exit is "failed to run pg_config" before any decoding or classification; undecodable stdout after a zero exit is a UTF-8 error; a supported version implies a zero exit and a matching banner |
| `PostgresVersion.VersionOfExact` | src/main.rs:147-164 | the probe succeeds exactly on a zero exit with decodable text that starts with a supported banner |
| `Machine.Effect` | src/main.rs:83-88 | only a tool that exits zero changes the host; only initdb touches the directories; the port file is never touched by a tool |
| `Machine.Host.Execute` | src/main.rs:130-131 | launching records the command at the end of the log and applies its effect |
| `Lifecycle.ConnectionString5432` | src/main.rs:119 | the endpoint for port 5432 is `postgresql://localhost:5432/postgres` |
| `Lifecycle.AfterCleanUp` | src/main.rs:48-55 | removal is a no-op without a config dir; a successful one leaves no config dir, port file or data dir; a failed one only removes; the server is untouched |
| `Lifecycle.SetupStatus` | src/main.rs:82-92 | setup succeeds exactly when both initdb and pg_ctl start succeed, and an initdb error is the setup error |
| `Lifecycle.Run` | src/main.rs:129-145 | the command is logged, its effect applied and its status mapped by RunStatus |
| `Lifecycle.GetPostgresVersion` | src/main.rs:147-164 | pg_config --version is logged, nothing else changes, and the result is VersionOf its outcome |
| `Lifecycle.PgTemp.Init` | src/main.rs:18-27 | a missing HOME is an error and changes nothing; the config dir is created only when absent, otherwise nothing changes; a failed create_dir is an I/O error |
| `Lifecycle.PgTemp.ReadPort` | src/main.rs:29-36 | a missing port file is a read error; otherwise the read succeeds exactly when the trimmed text is u32 text |
| `Lifecycle.PgTemp.WritePort` | src/main.rs:38-46 | success exactly when the config dir exists and the write succeeds, and the file then holds the decimal port; a failed create changes nothing; a failed write leaves an empty file |
| `Lifecycle.PgTemp.CleanUp` | src/main.rs:48-55 | Ok without change when the config dir is absent; otherwise the tree is removed, and a failed removal is "Failed to remove" the config dir; after success no port file and no data dir remain |
| `Lifecycle.PgTemp.CreateFolders` | src/main.rs:57-66 | the parent of the data path is created only when missing; otherwise nothing changes |
| `Lifecycle.PgTemp.Setup` | src/main.rs:82-92 | initdb runs first, and pg_ctl start runs only after a successful initdb, with the port and socket options |
| `Lifecycle.PgTemp.NewDb` | src/main.rs:68-102 | the version gate, then the data dir check, then the port write, then setup; each early failure leaves the state as stated and runs no further tool; a setup failure returns the setup error and removes the tree, whatever the removal reports; on success initdb then pg_ctl start ran, and the port file reads back as the port with the fixed connection string |
| `Lifecycle.PgTemp.Delete` | src/main.rs:104-115 | a version failure runs nothing else and changes nothing; pg_ctl stop always runs; a failed stop is returned and no file or directory is removed; only after a successful stop is the config dir removed; a successful delete leaves no port file, no data dir and no running server |
| `Lifecycle.PgTemp.ConnString` | src/main.rs:117-120 | the connection string is built exactly when the port can be read, and the read's error is returned otherwise |
| `Lifecycle.PgTemp.Connect` | src/main.rs:122-126 | psql is launched with the connection string only when one can be built; its run status is the result |
| `Scenarios.InitTwice` | src/main.rs:18-27 | two inits both succeed and leave only the config dir created |
| `Scenarios.CreateTwice` | src/main.rs:73-78 | after a successful create, a second create is refused with "one still exists" and the first port is still read back |
| `Scenarios.CreateOn5432` | src/main.rs:117-120 | a successful create on 5432 yields `postgresql://localhost:5432/postgres` |
| `Scenarios.RetryAfterFailedInitdb` | src/main.rs:82-97 | after a failed initdb, conn_string reports the missing port file, and a new run creates an instance on another port |
| `Scenarios.FailedStopKeepsInstance` | src/main.rs:104-112 | a failed stop keeps the port readable and the data dir, so a new create is refused |
| `Scenarios.DeleteThenCreate` | src/main.rs:104-115 | a delete whose stop and removal succeed lets the next run create an instance |

## Left out

- `main` and `src/cli.rs`: argument parsing and dispatch of the four
  subcommands. They contain no logic beyond calling one method.
- Real processes: `Command::new`, `spawn`, `wait_with_output` and `output`
  are replaced by an injected outcome. Every tool `run` launches (`initdb`,
  `pg_ctl`, `psql`) inherits the terminal. What it prints there, and
  `psql`'s interactive session, are not modelled.
- `println!` progress messages, including the empty line `run` prints after
  a successful tool, are not modelled. UTF-8 decoding is modelled only for
  `pg_config`'s captured stdout, as "decodes or not".
- Environment: `std::env::var("HOME")` becomes the `home` parameter of
  `Init`, with `None` meaning unset or not Unicode.
- Filesystem: paths are not interpreted. The host has one flag or value per
  entry of the instance directory. `exists`, `Path::parent` and path
  normalisation are not modelled.
- Concurrency: races between two program runs on the same directory are not
  modelled.
- Machine.Effect: a tool that fails is assumed to change nothing (`initdb`
  removes the data directory it created when it fails). The model does not
  check that `pg_ctl stop` fails when no server runs or no data directory
  exists. The outcome is given, not derived from the state.
- Lifecycle.PgTemp.ReadPort: a port file that exists but cannot be read, or
  that holds bytes that are not UTF-8, is not modelled. The port file's
  contents are text.
- Lifecycle.PgTemp.CleanUp: after a partial `remove_dir_all` the model keeps
  the config dir and lets the port file and data dir each survive or not. It
  does not model a partially removed data dir.
- The version value is only printed by `new_db` and is unused in `delete`.
  The model computes it and otherwise ignores it, as the code does.

## Findings

| source | as written | input that shows it | evidently intended | confidence | as-written member | corrected member |
|---|---|---|---|---|---|---|
| src/main.rs:130-140 | `run` starts the child with `spawn()` and pipes no stream, so `wait_with_output` returns empty stderr and the error reads `Failed to run initdb: ''` | `initdb` exits with status 1 after writing its reason to stderr | the error quotes what the tool wrote to stderr, as the `'{}'` placeholder shows | not executed; piping is needed for `wait_with_output` to capture a stream | `Process.QuotedStderrAlwaysEmpty` | `Process.RunStatusPiped` |

The lifecycle keeps `run` as written, because the two versions differ only
in the error value. `Process.PipedAgreesOnStatus` proves that they succeed
and fail on the same outcomes. The state each operation leaves and the tools
it launches depend only on whether `run` succeeded, so `NewDb`, `Delete` and
`Connect` leave the same state with the corrected `run`.
