/** `get_postgres_version`: run `pg_config --version` and map its output to a
    supported major version. */
module PostgresVersion {
  import opened Results
  import opened Process

  /** Rust's `u8`. */
  type u8 = x: int | 0 <= x < 256

  const PG_14 := "PostgreSQL 14"
  const PG_15 := "PostgreSQL 15"
  const PG_16 := "PostgreSQL 16"

  /** The command line of the version probe. */
  const PG_CONFIG_VERSION := Command("pg_config", ["--version"])

  /** The major versions the manager accepts. */
  predicate Supported(v: int) {
    v == 14 || v == 15 || v == 16
  }

  /** The prefix the banner of a supported major version starts with. */
  function Banner(v: int): string
    requires Supported(v)
  {
    if v == 14 then PG_14 else if v == 15 then PG_15 else PG_16
  }

  /** The classification of the decoded `pg_config --version` text, by
      `starts_with`, in the order 14, 15, 16. */
  function Classify(stdout: string): (r: Result<u8>)
    ensures r.Ok? ==> Supported(r.value) && Banner(r.value) <= stdout
    ensures r.Err? ==> r.error == UnsupportedVersion
  {
    if PG_14 <= stdout then Ok(14)
    else if PG_15 <= stdout then Ok(15)
    else if PG_16 <= stdout then Ok(16)
    else Err(UnsupportedVersion)
  }

  /** Each supported version is recognised exactly when the text starts with
      its banner, and everything else is unsupported. */
  lemma ClassifyExact(stdout: string, v: int)
    requires Supported(v)
    ensures Classify(stdout) == Ok(v) <==> Banner(v) <= stdout
    ensures Classify(stdout) == Err(UnsupportedVersion) <==>
              !(PG_14 <= stdout) && !(PG_15 <= stdout) && !(PG_16 <= stdout)
  {
    if Banner(v) <= stdout {
      BannersExclusive(stdout);
    }
  }

  /** No text starts with two of the three banners. */
  lemma BannersExclusive(s: string)
    ensures !(PG_14 <= s && PG_15 <= s)
    ensures !(PG_14 <= s && PG_16 <= s)
    ensures !(PG_15 <= s && PG_16 <= s)
  {
    if |s| >= 13 {
      assert PG_14[12] == '4' && PG_15[12] == '5' && PG_16[12] == '6';
    }
  }

  /** Matching is by prefix only: a banner that names PostgreSQL 16 after
      some other text is unsupported. */
  lemma EmbeddedBannerRejected()
    ensures Classify("pg_config (PostgreSQL 16.1)") == Err(UnsupportedVersion)
  {
    assert "pg_config (PostgreSQL 16.1)"[0] == 'p';
  }

  /** What `pg_config --version` produced through `.output()`, which
      captures both streams.  `ProbeCouldNotRun` is an I/O error from
      spawning or waiting; otherwise the exit status and stdout, `None` when
      its bytes are not UTF-8.  The captured stderr is never read. */
  datatype ProbeOutcome = ProbeCouldNotRun | Probed(success: bool, stdout: Option<string>)

  /** The probe's exit status alone. */
  function ProbeStatus(o: ProbeOutcome): RunOutcome {
    match o
    case ProbeCouldNotRun => CouldNotRun
    case Probed(success, _) => Exited(success)
  }

  /** The version probe as a whole: an error to spawn is an I/O error, a
      non-zero exit is "failed to run pg_config" whatever the output says,
      and only then is stdout decoded and classified. */
  function VersionOf(o: ProbeOutcome): (r: Result<u8>)
    ensures r.Ok? ==> o.Probed? && o.success && o.stdout.Some? && Supported(r.value)
                      && Banner(r.value) <= o.stdout.value
    ensures o.Probed? && !o.success ==> r == Err(PgConfigFailed)
    ensures o.Probed? && o.success && o.stdout.None? ==> r == Err(InvalidUtf8)
    ensures o.ProbeCouldNotRun? ==> r == Err(Io(Spawn("pg_config")))
  {
    match o
    case ProbeCouldNotRun => Err(Io(Spawn("pg_config")))
    case Probed(success, stdout) =>
      if !success then Err(PgConfigFailed)
      else if stdout.None? then Err(InvalidUtf8)
      else Classify(stdout.value)
  }

  /** The probe succeeds exactly when pg_config exits with status zero and
      prints decodable text that starts with a supported banner. */
  lemma VersionOfExact(o: ProbeOutcome)
    ensures VersionOf(o).Ok? <==>
              o.Probed? && o.success && o.stdout.Some? &&
              (PG_14 <= o.stdout.value || PG_15 <= o.stdout.value || PG_16 <= o.stdout.value)
  {
  }
}
