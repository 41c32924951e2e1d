/** Sequences of runs of the program against one host, each run being `init`
    followed by one operation, and what they guarantee together. */
module Scenarios {
  import opened Results
  import opened Process
  import opened PortMarker
  import opened PostgresVersion
  import opened Machine
  import opened Lifecycle

  /** The outside world lets every step after the version probe succeed. */
  predicate Cooperative(w: World) {
    !w.mkdirFails && w.portWrite == WriteOk && w.removal.RemovalSucceeds?
    && SetupStatus(w).Ok?
  }

  /** Running `init` twice in a row: both succeed and the second changes
      nothing. */
  method InitTwice(home: string, host: Host, w1: World, w2: World)
    returns (first: Result<PgTemp>, second: Result<PgTemp>)
    requires host.Valid() && !w1.mkdirFails
    modifies host
    ensures first.Ok? && second.Ok?
    ensures host.state == old(host.state).(configDir := true)
  {
    first := PgTemp.Init(Some(home), host, w1);
    second := PgTemp.Init(Some(home), host, w2);
  }

  /** A second `new_db` without an intervening `delete` is refused, and the
      port file still holds the first port. */
  method CreateTwice(t: PgTemp, p1: u32, w1: World, p2: u32, w2: World)
    returns (r1: Result<()>, r2: Result<()>)
    requires t.host.Valid()
    modifies t.host
    ensures r1.Ok? && VersionOf(w2.pgConfig).Ok? ==>
              r2 == Err(DbStillExists) && t.ReadPort() == Ok(p1)
              && t.ConnString() == Ok(ConnectionString(p1))
  {
    r1 := t.NewDb(p1, w1);
    r2 := t.NewDb(p2, w2);
  }

  /** `new_db(5432)` followed by `conn_string`. */
  method CreateOn5432(t: PgTemp, w: World) returns (r: Result<()>, conn: Result<string>)
    requires t.host.Valid()
    modifies t.host
    ensures r.Ok? ==> conn == Ok("postgresql://localhost:5432/postgres")
  {
    r := t.NewDb(5432, w);
    conn := t.ConnString();
    ConnectionString5432();
  }

  /** A `new_db` whose `initdb` fails leaves no port file behind, so
      `conn_string` reports the missing file, and a later run can create an
      instance on another port. */
  method RetryAfterFailedInitdb(home: string, host: Host, p1: u32, w1: World, p2: u32, w2: World)
    returns (failed: Result<()>, between: Result<string>, retried: Result<()>)
    requires host.Valid() && !host.state.dataDir
    requires VersionOf(w1.pgConfig).Ok? && !w1.mkdirFails && w1.portWrite == WriteOk
    requires w1.removal.RemovalSucceeds? && RunStatus("initdb", w1.initdb).Err?
    requires VersionOf(w2.pgConfig).Ok? && Cooperative(w2)
    modifies host
    ensures failed == RunStatus("initdb", w1.initdb)
    ensures between == Err(Io(ReadFile(ConfigDirOf(home) + "/port")))
    ensures retried.Ok?
    ensures host.state.portFile == Some(Decimal(p2))
  {
    var run1 := PgTemp.Init(Some(home), host, w1);
    var t1 := run1.value;
    failed := t1.NewDb(p1, w1);
    between := t1.ConnString();
    var run2 := PgTemp.Init(Some(home), host, w2);
    var t2 := run2.value;
    retried := t2.NewDb(p2, w2);
  }

  /** `delete` whose `pg_ctl stop` fails keeps the instance: the port can
      still be read and a new `new_db` is refused. */
  method FailedStopKeepsInstance(t: PgTemp, w: World, p: u32, w2: World)
    returns (deleted: Result<()>, recreated: Result<()>)
    requires t.host.Valid() && t.ReadPort() == Ok(p) && t.host.state.dataDir
    requires VersionOf(w.pgConfig).Ok? && RunStatus("pg_ctl", w.pgCtl).Err?
    requires VersionOf(w2.pgConfig).Ok?
    modifies t.host
    ensures deleted == RunStatus("pg_ctl", w.pgCtl)
    ensures recreated == Err(DbStillExists)
    ensures t.ReadPort() == Ok(p)
  {
    deleted := t.Delete(w);
    recreated := t.NewDb(p, w2);
  }

  /** `delete` after a successful stop and removal lets a later run create a
      new instance. */
  method DeleteThenCreate(home: string, host: Host, w1: World, p: u32, w2: World)
    returns (deleted: Result<()>, created: Result<()>)
    requires host.Valid()
    requires VersionOf(w1.pgConfig).Ok? && !w1.mkdirFails && RunStatus("pg_ctl", w1.pgCtl).Ok?
    requires w1.removal.RemovalSucceeds?
    requires VersionOf(w2.pgConfig).Ok? && Cooperative(w2)
    modifies host
    ensures deleted.Ok?
    ensures created.Ok?
    ensures host.state.serverRunning
  {
    var run1 := PgTemp.Init(Some(home), host, w1);
    deleted := run1.value.Delete(w1);
    var run2 := PgTemp.Init(Some(home), host, w2);
    created := run2.value.NewDb(p, w2);
  }
}
